/**
 * The client's route table (frontend/src/App.js): the login page is open, and each dashboard is
 * wrapped in the role guard with its own list of roles. Alongside it, the backend endpoints each
 * dashboard calls.
 */
module AppRoutes {
  import opened Wrappers
  import opened UserModel
  import opened AuthGate
  import opened RoleRoute

  datatype Page = LoginPage | AdminPage | ManagerPage | StaffPage

  function Path(p: Page): string {
    match p
    case LoginPage => "/login"
    case AdminPage => "/admin"
    case ManagerPage => "/manager"
    case StaffPage => "/staff"
  }

  /** The page a path leads to; the table has no other routes. */
  function PageAt(path: string): (p: Option<Page>)
    ensures p.Some? ==> Path(p.value) == path
    ensures p.None? ==> forall q :: Path(q) != path
  {
    if path == "/login" then Some(LoginPage)
    else if path == "/admin" then Some(AdminPage)
    else if path == "/manager" then Some(ManagerPage)
    else if path == "/staff" then Some(StaffPage)
    else None
  }

  /** The roles a page's guard allows; the login page has no guard. */
  function Allowed(p: Page): (a: Option<seq<string>>)
    ensures a.None? <==> p == LoginPage
    ensures a.Some? ==> a.value != [] && RoleName(Admin) in a.value
    ensures a.Some? ==> forall r :: r in a.value ==> ParseRole(r).Some?
  {
    match p
    case LoginPage => None
    case AdminPage => Some([RoleName(Admin)])
    case ManagerPage => Some([RoleName(Manager), RoleName(Admin)])
    case StaffPage => Some([RoleName(Staff), RoleName(Manager), RoleName(Admin)])
  }

  /** What visiting a page shows the current user. */
  function Visit(p: Page, user: Option<Session>): (o: Outcome)
    ensures p == LoginPage ==> o.Children?
    ensures p != LoginPage ==> o == Guard(user, Allowed(p).value)
  {
    match Allowed(p)
    case None => Children
    case Some(allowed) => Guard(user, allowed)
  }

  /** Whether a logged-in user with this role sees the page itself. */
  predicate Admits(p: Page, role: string) {
    Visit(p, Some(Session("", role, ""))).Children?
  }

  /**
   * The access table: the login page is open to everybody, /admin admits only admin, /manager
   * manager and admin, /staff all three roles; nobody outside the three roles gets past a guard.
   */
  lemma {:induction false} PageAccess(role: string)
    ensures Admits(LoginPage, role) && Visit(LoginPage, None).Children?
    ensures Admits(AdminPage, role) <==> role == "admin"
    ensures Admits(ManagerPage, role) <==> role in {"manager", "admin"}
    ensures Admits(StaffPage, role) <==> role in {"staff", "manager", "admin"}
    ensures forall p :: p != LoginPage ==> Visit(p, None).RedirectToLogin?
    ensures ParseRole(role).None? ==> forall p :: p != LoginPage ==> !Admits(p, role)
  {
    assert ParseRole(role).Some? <==> role in [RoleName(Admin), RoleName(Manager), RoleName(Staff)];
  }

  /** The guarded pages a role sees. */
  function PagesOf(role: string): (ps: set<Page>)
    ensures forall p :: p in ps <==> p != LoginPage && Admits(p, role)
  {
    set p | p in {AdminPage, ManagerPage, StaffPage} && Admits(p, role)
  }

  /** Every page the staff role sees the manager role sees, and every one of those the admin role. */
  lemma PagesNested()
    ensures PagesOf("staff") <= PagesOf("manager") <= PagesOf("admin")
    ensures PagesOf("staff") == {StaffPage}
    ensures PagesOf("admin") == {AdminPage, ManagerPage, StaffPage}
  {
    PageAccess("staff");
    PageAccess("manager");
    PageAccess("admin");
  }

  /** The backend endpoints each dashboard calls (fetch, and the actions it offers). */
  function PageCalls(p: Page): (calls: seq<Endpoint>)
    ensures calls == [] <==> p == LoginPage
    ensures p != LoginPage ==> ListProducts in calls
    ensures ListUsers in calls || DeleteUser in calls || DeleteProduct in calls ==> p == AdminPage
  {
    match p
    case LoginPage => []
    case AdminPage => [ListUsers, ListProducts, DeleteUser, DeleteProduct]
    case ManagerPage => [ListProducts, UpdateProduct, CreateProduct]
    case StaffPage => [ListProducts, UpdateProductStock]
  }

  /** A user who gets past a dashboard's guard is let through by the backend on every call it makes. */
  lemma {:induction false} PageCallsPermitted(p: Page, role: string)
    requires Admits(p, role)
    ensures forall e :: e in PageCalls(p) ==> Permits(e, role)
  {
    PageAccess(role);
    forall e | e in PageCalls(p) ensures Permits(e, role) {
      EndpointAccess(e, role);
    }
  }
}
