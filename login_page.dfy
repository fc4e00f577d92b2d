/**
 * The login form's submit handler (frontend/src/Components/LoginPage.jsx): on success it stores
 * the session and goes to the landing page for the role; on failure it shows the server's message
 * or a fallback, and stays.
 */
module Login {
  import opened Wrappers
  import opened UserModel
  import opened RoleRoute
  import opened AppRoutes

  /** The landing page after login: admin to /admin, manager to /manager, anyone else to /staff. */
  function Landing(role: string): (p: Page)
    ensures role == "admin" ==> p == AdminPage
    ensures role == "manager" ==> p == ManagerPage
    ensures role != "admin" && role != "manager" ==> p == StaffPage
  {
    if role == "admin" then AdminPage
    else if role == "manager" then ManagerPage
    else StaffPage
  }

  /**
   * Each of the three roles lands on a page that admits it; a role outside them lands on /staff
   * and is shown "Access Denied" there.
   */
  lemma {:induction false} LandingAdmits(s: Session)
    ensures ParseRole(s.role).Some? ==> Visit(Landing(s.role), Some(s)).Children?
    ensures ParseRole(s.role).None? ==> Landing(s.role) == StaffPage && Visit(StaffPage, Some(s)).AccessDenied?
  {
    assert ParseRole(s.role).Some? <==> s.role in [RoleName(Admin), RoleName(Manager), RoleName(Staff)];
  }

  /** The message shown on failure: the server's `msg` when it is a non-empty string, else "Login failed". */
  function ErrorText(msg: Option<string>): (e: string)
    ensures e != ""
    ensures msg.Some? && msg.value != "" ==> e == msg.value
    ensures msg.None? || msg.value == "" ==> e == "Login failed"
  {
    if msg.Some? && msg.value != "" then msg.value else "Login failed"
  }

  /** What POST /auth/login answered: the session fields, or an error with an optional message. */
  datatype LoginResponse = LoggedIn(token: string, role: string, name: string) | Rejected(msg: Option<string>)

  /** The state `submit` touches: the error line, the stored session and where the browser is. */
  class LoginForm {
    var error: string
    var session: Option<Session>
    var location: Page

    constructor ()
      ensures error == "" && session == None && location == LoginPage
    {
      error := "";
      session := None;
      location := LoginPage;
    }

    /**
     * Submitting the form once the server has answered. Success stores the session and navigates
     * to the role's landing page, leaving the error line; failure sets the error line only.
     */
    method Submit(resp: LoginResponse)
      modifies this
      ensures resp.LoggedIn? ==> session == Some(Session(resp.token, resp.role, resp.name))
                                 && location == Landing(resp.role) && error == old(error)
      ensures resp.Rejected? ==> error == ErrorText(resp.msg) && error != ""
                                 && session == old(session) && location == old(location)
    {
      match resp
      case LoggedIn(token, role, name) =>
        session := Some(Session(token, role, name));
        location := Landing(role);
      case Rejected(msg) =>
        error := ErrorText(msg);
    }
  }
}
