/**
 * The user schema (backend/back/models/user.js): a name, a unique email, a password hash and
 * a role drawn from a three-value enum that defaults to staff.
 */
module UserModel {
  import opened Wrappers

  datatype Role = Admin | Manager | Staff

  /** The role's name as the schema's enum, the JWT payload and the frontend spell it. */
  function RoleName(r: Role): string {
    match r
    case Admin => "admin"
    case Manager => "manager"
    case Staff => "staff"
  }

  /** The schema's enum check: the role a name denotes, if it is one of the three. */
  function ParseRole(name: string): (r: Option<Role>)
    ensures r.Some? <==> name in [RoleName(Admin), RoleName(Manager), RoleName(Staff)]
    ensures r.Some? ==> RoleName(r.value) == name
  {
    if name == "admin" then Some(Admin)
    else if name == "manager" then Some(Manager)
    else if name == "staff" then Some(Staff)
    else None
  }

  /** Naming a role and reading the name back gives the role again. */
  lemma RoleNameRoundTrip(r: Role)
    ensures ParseRole(RoleName(r)) == Some(r)
  {
  }

  /** A stored user. `email` is `None` when the document has no email. */
  datatype User = User(id: nat, name: Option<string>, email: Option<string>, password: Option<string>, role: Role)

  /** The fields a new user document is built from; absent fields are `None`. */
  datatype UserInput = UserInput(name: Option<string>, email: Option<string>, password: Option<string>, role: Option<string>)

  /**
   * Building and validating a user document: the role defaults to staff and must otherwise be
   * one of the enum's names; every other field is optional.
   */
  function BuildUser(input: UserInput, id: nat): (r: Option<User>)
    ensures r.Some? <==> input.role.None? || ParseRole(input.role.value).Some?
    ensures r.Some? ==> r.value.id == id && r.value.name == input.name && r.value.email == input.email
                        && r.value.password == input.password
    ensures r.Some? && input.role.None? ==> r.value.role == Staff
    ensures r.Some? && input.role.Some? ==> RoleName(r.value.role) == input.role.value
  {
    match input.role
    case None => Some(User(id, input.name, input.email, input.password, Staff))
    case Some(name) =>
      match ParseRole(name)
      case None => None
      case Some(role) => Some(User(id, input.name, input.email, input.password, role))
  }

  /**
   * The unique index on `email`: no two stored users share one. A missing email is indexed as
   * null, so at most one user may lack an email.
   */
  ghost predicate UniqueEmails(users: map<nat, User>) {
    forall a, b :: a in users && b in users && a != b ==> users[a].email != users[b].email
  }

  /** Whether some stored user already has `email`. */
  predicate EmailTaken(users: map<nat, User>, email: Option<string>) {
    exists k | k in users :: users[k].email == email
  }
}
