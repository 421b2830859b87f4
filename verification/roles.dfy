/** The three user roles and the identity a request is resolved to. */
module Roles {
  import opened Wrappers

  datatype Role = Admin | Agent | Client

  /** The literal string each role is stored and transmitted as. */
  function Name(r: Role): string {
    match r
    case Admin => "ADMIN"
    case Agent => "AGENT"
    case Client => "CLIENT"
  }

  /** Reads a role from its literal string; any other string is no role. */
  function Parse(s: string): (r: Option<Role>)
    ensures r.Some? ==> Name(r.value) == s
    ensures r.None? ==> forall x: Role :: Name(x) != s
  {
    if s == "ADMIN" then Some(Admin)
    else if s == "AGENT" then Some(Agent)
    else if s == "CLIENT" then Some(Client)
    else None
  }

  lemma ParseName(r: Role)
    ensures Parse(Name(r)) == Some(r)
  {
  }

  /** The user a request has been authenticated as. */
  datatype Identity = Identity(id: string, email: string, role: Role)
}
