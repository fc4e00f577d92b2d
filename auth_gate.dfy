/**
 * The role gate that every route file defines for itself (`auth` in productRoutes.js,
 * orderRoutes.js and userRoutes.js, `checkAuth` in analyticsRoutes.js; the four are identical),
 * and the list of roles each endpoint hands it.
 */
module AuthGate {
  import opened Http
  import opened UserModel

  /**
   * What the Authorization header carried. Verifying the JWT is done by a library outside the
   * model, so its verdict (`verifies`) and the role in its payload are inputs.
   */
  datatype Credential = NoToken | Token(verifies: bool, role: string)

  /** The gate lets the request through to the handler with the caller's role, or answers itself. */
  datatype Verdict = Admit(role: string) | Refuse(failure: Failure)

  /**
   * The gate for a list of allowed roles: 401 without a token or with one that does not verify,
   * 403 when the list is non-empty and lacks the token's role, otherwise through.
   */
  function Gate(c: Credential, roles: seq<string>): (v: Verdict)
    ensures v.Admit? <==> c.Token? && c.verifies && (roles == [] || c.role in roles)
    ensures v.Admit? ==> v.role == c.role
    ensures v.Refuse? && v.failure.Code() == 401 <==> c.NoToken? || !c.verifies
    ensures v.Refuse? && v.failure.Code() == 403 <==> c.Token? && c.verifies && roles != [] && c.role !in roles
    ensures v.Refuse? ==> v.failure.Code() in {401, 403}
  {
    match c
    case NoToken => Refuse(Unauthorized("No token, authorization denied"))
    case Token(ok, role) =>
      if !ok then Refuse(Unauthorized("Token is not valid"))
      else if |roles| > 0 && role !in roles then Refuse(Forbidden("Access denied"))
      else Admit(role)
  }

  /** Widening a non-empty allowed list never shuts out a caller it let through before. */
  lemma GateMonotone(c: Credential, narrow: seq<string>, wide: seq<string>)
    requires narrow != [] && forall r :: r in narrow ==> r in wide
    ensures Gate(c, narrow).Admit? ==> Gate(c, wide).Admit?
  {
  }

  /** The endpoints of the four route files. */
  datatype Endpoint =
    | ListProducts | CreateProduct | UpdateProduct | UpdateProductStock | DeleteProduct
    | CreateOrder | ListOrders | UpdateOrderStatus | DeleteOrder
    | ListUsers | DeleteUser
    | AdminAnalytics | ManagerAnalytics

  /** The role list each endpoint passes to its gate (empty: any valid token). */
  function Roles(e: Endpoint): (rs: seq<string>)
    ensures rs == [] <==> e == ListProducts || e == ListOrders
    ensures forall r :: r in rs ==> ParseRole(r).Some?
    ensures rs != [] ==> RoleName(Admin) in rs
  {
    match e
    case ListProducts => []
    case CreateProduct => [RoleName(Admin), RoleName(Manager)]
    case UpdateProduct => [RoleName(Admin), RoleName(Manager)]
    case UpdateProductStock => [RoleName(Admin), RoleName(Manager), RoleName(Staff)]
    case DeleteProduct => [RoleName(Admin)]
    case CreateOrder => [RoleName(Staff), RoleName(Admin), RoleName(Manager)]
    case ListOrders => []
    case UpdateOrderStatus => [RoleName(Staff), RoleName(Manager), RoleName(Admin)]
    case DeleteOrder => [RoleName(Admin)]
    case ListUsers => [RoleName(Admin)]
    case DeleteUser => [RoleName(Admin)]
    case AdminAnalytics => [RoleName(Admin)]
    case ManagerAnalytics => [RoleName(Manager), RoleName(Admin)]
  }

  /** Whether a caller with a verified token and this role passes the endpoint's gate. */
  predicate Permits(e: Endpoint, role: string) {
    Gate(Token(true, role), Roles(e)).Admit?
  }

  /**
   * The per-endpoint access table: which of the three roles each endpoint admits, and that an
   * endpoint with a role list admits nobody outside the schema's enum.
   */
  lemma {:induction false} EndpointAccess(e: Endpoint, role: string)
    ensures e in {ListProducts, ListOrders} ==> Permits(e, role)
    ensures e in {CreateProduct, UpdateProduct} ==>
              (Permits(e, role) <==> role in {RoleName(Admin), RoleName(Manager)})
    ensures e in {UpdateProductStock, CreateOrder, UpdateOrderStatus} ==>
              (Permits(e, role) <==> ParseRole(role).Some?)
    ensures e in {DeleteProduct, DeleteOrder, ListUsers, DeleteUser, AdminAnalytics} ==>
              (Permits(e, role) <==> role == RoleName(Admin))
    ensures e == ManagerAnalytics ==> (Permits(e, role) <==> role in {RoleName(Manager), RoleName(Admin)})
    ensures Roles(e) != [] && Permits(e, role) ==> ParseRole(role).Some?
  {
    var names := [RoleName(Admin), RoleName(Manager), RoleName(Staff)];
    assert ParseRole(role).Some? <==> role in names;
  }
}
