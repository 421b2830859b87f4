/** `POST` and `GET /api/auth/backdoor`: the development-only sign-in as a
    fixed test user of a chosen role. `sign` stands for token creation and
    the auth cookie; `None` means it threw. */
module BackdoorRoute {
  import opened Wrappers
  import opened Roles
  import opened ApiResponse

  datatype TestUser = TestUser(id: string, email: string, role: Role, firstName: string, lastName: string)

  /** The parsed body; `role` is missing when the body has no such key. */
  datatype BackdoorBody = BackdoorBody(role: Option<string>)

  datatype BackdoorLogin = BackdoorLogin(user: TestUser, token: string, message: string)

  /** The `GET` description (a bare object, not an envelope). */
  datatype Usage = Usage(message: string, usage: string, availableRoles: seq<string>)
  datatype UsageReply = Refused(reply: Reply<Usage>) | Described(info: Usage)

  /** The test accounts in declaration order, keyed by role name. */
  const TestUsers: seq<(string, TestUser)> := [
    ("ADMIN", TestUser("admin-user-1", "admin@recrm.com", Admin, "Admin", "User")),
    ("AGENT", TestUser("agent-user-1", "agent1@recrm.com", Agent, "John", "Agent")),
    ("CLIENT", TestUser("client-user-1", "client@recrm.com", Client, "Jane", "Client"))
  ]

  const Accepted: seq<string> := ["ADMIN", "AGENT", "CLIENT"]

  const NotInProduction: string := "Backdoor not available in production"
  const BadRole: string := "Invalid role. Must be ADMIN, AGENT, or CLIENT"
  const Failed: string := "An error occurred. Please try again."

  function Lookup(entries: seq<(string, TestUser)>, key: string): (r: Option<TestUser>)
    ensures r.Some? <==> exists i :: 0 <= i < |entries| && entries[i].0 == key
    ensures r.Some? ==> exists i :: 0 <= i < |entries| && entries[i] == (key, r.value)
  {
    if entries == [] then None
    else if entries[0].0 == key then Some(entries[0].1)
    else
      var r := Lookup(entries[1..], key);
      assert r.Some? ==> exists i :: 0 <= i < |entries[1..]| && entries[1..][i] == (key, r.value);
      assert r.Some? ==> exists i :: 0 <= i < |entries| && entries[i] == (key, r.value) by {
        if r.Some? {
          var i :| 0 <= i < |entries[1..]| && entries[1..][i] == (key, r.value);
          assert entries[i + 1] == (key, r.value);
        }
      }
      assert (exists i :: 0 <= i < |entries| && entries[i].0 == key) ==> r.Some? by {
        if exists i :: 0 <= i < |entries| && entries[i].0 == key {
          var i :| 0 <= i < |entries| && entries[i].0 == key;
          assert entries[1..][i - 1].0 == key;
        }
      }
      r
  }

  function Login(nodeEnv: string, body: Option<BackdoorBody>, sign: TestUser -> Option<string>): (r: Reply<BackdoorLogin>)
    ensures Consistent(r)
    ensures nodeEnv == "production" ==> r == ErrorReply(NotInProduction, 403)
    ensures nodeEnv != "production" && body.None? ==> r == ErrorReply(Failed, 500)
    ensures r.status == 400 <==> nodeEnv != "production" && body.Some? && body.value.role.GetOr("ADMIN") !in Accepted
    ensures r.status == 400 ==> r == ErrorReply(BadRole, 400)
    ensures r.status == 200 <==>
      && nodeEnv != "production" && body.Some?
      && exists u :: (body.value.role.GetOr("ADMIN"), u) in TestUsers && sign(u).Some?
    ensures r.status == 500 ==> r == ErrorReply(Failed, 500)
    ensures r.status == 200 ==>
      && nodeEnv != "production" && body.Some?
      && var role := body.value.role.GetOr("ADMIN");
      && r.body.data.Some?
      && Name(r.body.data.value.user.role) == role
      && Some(r.body.data.value.token) == sign(r.body.data.value.user)
      && r.body.data.value.message == "Test login: " + role
      && r.body.message == Some("Backdoor login successful")
  {
    if nodeEnv == "production" then ErrorReply(NotInProduction, 403)
    else
      match body
      case None => ErrorReply(Failed, 500)
      case Some(b) =>
        var role := b.role.GetOr("ADMIN");
        if role !in Accepted then ErrorReply(BadRole, 400)
        else
          match Lookup(TestUsers, role)
          case None => ErrorReply("No test user found for role: " + role, 404)
          case Some(user) =>
            match sign(user)
            case None => ErrorReply(Failed, 500)
            case Some(token) =>
              SuccessReply(BackdoorLogin(user, token, "Test login: " + role), "Backdoor login successful", 200)
  }

  /** Every accepted role name has a test user, so the 404 reply is never given. */
  lemma NeverNotFound(nodeEnv: string, body: Option<BackdoorBody>, sign: TestUser -> Option<string>)
    ensures Login(nodeEnv, body, sign).status != 404
  {
    if nodeEnv != "production" && body.Some? {
      var role := body.value.role.GetOr("ADMIN");
      if role in Accepted {
        assert role == TestUsers[0].0 || role == TestUsers[1].0 || role == TestUsers[2].0;
      }
    }
  }

  /** A body without a role signs in as the test admin. */
  lemma MissingRoleIsAdmin(nodeEnv: string, sign: TestUser -> Option<string>)
    requires nodeEnv != "production"
    requires sign(TestUsers[0].1).Some?
    ensures var r := Login(nodeEnv, Some(BackdoorBody(None)), sign);
            r.status == 200 && r.body.data.value.user == TestUsers[0].1
  {
    assert TestUsers[0].0 == "ADMIN";
  }

  /** The user signed in as is the table's entry for the requested role. */
  lemma SignsInAsTableEntry(nodeEnv: string, body: BackdoorBody, sign: TestUser -> Option<string>)
    ensures var r := Login(nodeEnv, Some(body), sign);
            r.status == 200 ==> (body.role.GetOr("ADMIN"), r.body.data.value.user) in TestUsers
  {
  }

  function Describe(nodeEnv: string): (r: UsageReply)
    ensures nodeEnv == "production" <==> r.Refused?
    ensures r.Refused? ==> r.reply == ErrorReply(NotInProduction, 403)
    ensures r.Described? ==> r.info.availableRoles == ["ADMIN", "AGENT", "CLIENT"]
  {
    if nodeEnv == "production" then Refused(ErrorReply(NotInProduction, 403))
    else Described(Usage("Backdoor route available in development only",
                         "POST /api/auth/backdoor with body: { role: 'ADMIN' | 'AGENT' | 'CLIENT' }",
                         seq(|TestUsers|, i requires 0 <= i < |TestUsers| => TestUsers[i].0)))
  }

  /** The roles `GET` lists are exactly the ones `POST` accepts. */
  lemma ListedRolesAreAccepted(nodeEnv: string)
    requires nodeEnv != "production"
    ensures forall s :: s in Describe(nodeEnv).info.availableRoles <==> s in Accepted
  {
  }
}
