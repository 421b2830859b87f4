/** `POST /api/auth/register`: self-service sign-up, which always creates an agent. */
module RegisterRoute {
  import opened Wrappers
  import opened Roles
  import opened Validations
  import opened ApiResponse
  import opened Db

  /** The public part of the new account echoed back to the caller. */
  datatype RegisteredUser = RegisteredUser(id: string, email: string, firstName: string, lastName: string)

  const Failed: string := "Something went wrong. Please try again."
  const Taken: string := "User with this email already exists"

  /** The account row created for a validated sign-up; the stored password is
      the hash, the role is always agent and the account starts active. */
  function NewAccount(input: RegisterInput, newId: string, hash: string -> string): User {
    User(newId, input.email, Some(hash(input.password)), Some(input.firstName), Some(input.lastName),
         Some(input.phone), None, Agent, true, None, None)
  }

  /** `body` is `None` when the request body is not JSON; `outage` is a failing
      database call; `hash` stands for bcrypt with ten rounds. */
  function Register(body: Option<RegisterBody>, f: Formats, db: Store, outage: Option<Fault>,
                    newId: string, hash: string -> string): (o: Outcome<RegisteredUser>)
    ensures Consistent(o.reply)
    ensures o.reply.status != 201 ==> o.store == db
    ensures body.None? ==> o.reply == ErrorReply(Failed, 500)
    ensures body.Some? && ValidateRegister(body.value, f).Failure? ==>
      o.reply == ErrorReply(ValidateRegister(body.value, f).error, 400)
    ensures body.Some? && ValidateRegister(body.value, f).Success? && outage.Some? ==>
      o.reply == ErrorReply(Failed, 500)
    ensures o.reply.status == 409 <==>
      && body.Some? && ValidateRegister(body.value, f).Success? && outage.None?
      && exists u :: u in db.users && u.email == body.value.email.value
    ensures o.reply.status == 409 ==> o.reply == ErrorReply(Taken, 409)
    ensures o.reply.status == 201 <==>
      && body.Some? && ValidateRegister(body.value, f).Success? && outage.None?
      && forall u :: u in db.users ==> u.email != body.value.email.value
    ensures o.reply.status == 201 ==>
      && var input := ValidateRegister(body.value, f).value;
      && o.store == db.(users := db.users + [NewAccount(input, newId, hash)])
      && o.reply.body.data == Some(RegisteredUser(newId, input.email, input.firstName, input.lastName))
      && o.reply.body.message == Some("User registered successfully")
  {
    match body
    case None => Outcome(ErrorReply(Failed, 500), db)
    case Some(b) =>
      match ValidateRegister(b, f)
      case Failure(message) => Outcome(ErrorReply(message, 400), db)
      case Success(input) =>
        if outage.Some? then Outcome(ErrorReply(Failed, 500), db)
        else if FindUserByEmail(db.users, input.email).Some? then Outcome(ErrorReply(Taken, 409), db)
        else
          var account := NewAccount(input, newId, hash);
          Outcome(SuccessReply(RegisteredUser(newId, input.email, input.firstName, input.lastName),
                               "User registered successfully", 201),
                  db.(users := db.users + [account]))
  }

  /** Whatever role the body asks for, a new account is an agent. */
  lemma AlwaysAgent(body: RegisterBody, f: Formats, db: Store, newId: string, hash: string -> string)
    ensures var o := Register(Some(body), f, db, None, newId, hash);
            o.reply.status == 201 ==> o.store.users[|o.store.users| - 1].role == Agent
  {
  }

  /** Sign-up keeps e-mail addresses unique. */
  lemma {:induction false} RegisterKeepsEmailsUnique(body: Option<RegisterBody>, f: Formats, db: Store, outage: Option<Fault>,
                                                     newId: string, hash: string -> string)
    requires UniqueEmails(db.users)
    ensures UniqueEmails(Register(body, f, db, outage, newId, hash).store.users)
  {
    var o := Register(body, f, db, outage, newId, hash);
    if o.reply.status == 201 {
      var us := o.store.users;
      var email := body.value.email.value;
      assert us == db.users + [us[|us| - 1]];
      assert us[|us| - 1].email == email;
      forall i, j | 0 <= i < j < |us| ensures us[i].email != us[j].email {
        if j == |us| - 1 {
          assert us[i] == db.users[i];
          assert db.users[i] in db.users;
        } else {
          assert us[i] == db.users[i] && us[j] == db.users[j];
        }
      }
    }
  }

  /** Registering the same address twice: the first succeeds, the second is
      refused with 409 and changes nothing. */
  lemma RegisterTwice(body: RegisterBody, f: Formats, db: Store, id1: string, id2: string, hash: string -> string)
    requires ValidateRegister(body, f).Success?
    requires forall u :: u in db.users ==> u.email != body.email.value
    ensures var first := Register(Some(body), f, db, None, id1, hash);
            var second := Register(Some(body), f, first.store, None, id2, hash);
            first.reply.status == 201 && second.reply == ErrorReply(Taken, 409) && second.store == first.store
  {
    var first := Register(Some(body), f, db, None, id1, hash);
    var us := first.store.users;
    assert us[|us| - 1] in us;
  }
}
