/**
 * The client-side role guard (frontend/src/Components/Routes/RoleRoute.jsx): with no logged-in
 * user it sends the browser to the login page, with a user whose role is not allowed it shows
 * "Access Denied", and otherwise it renders the page it wraps.
 */
module RoleRoute {
  import opened Wrappers
  import opened AuthGate

  /** What the login stored for the current user (the role is the server's string). */
  datatype Session = Session(token: string, role: string, name: string)

  datatype Outcome = RedirectToLogin | AccessDenied | Children

  /** The guard's decision for the current user and the page's allowed roles. */
  function Guard(user: Option<Session>, allowed: seq<string>): (o: Outcome)
    ensures o.RedirectToLogin? <==> user.None?
    ensures o.AccessDenied? <==> user.Some? && user.value.role !in allowed
    ensures o.Children? <==> user.Some? && user.value.role in allowed
  {
    if user.None? then RedirectToLogin
    else if user.value.role !in allowed then AccessDenied
    else Children
  }

  /**
   * The decision depends on nothing but whether there is a user and whether its role is allowed:
   * two users alike in that respect get the same outcome.
   */
  lemma {:induction false} GuardDependsOnMembership(u: Option<Session>, w: Option<Session>, allowed: seq<string>)
    requires u.Some? <==> w.Some?
    requires u.Some? && w.Some? ==> (u.value.role in allowed <==> w.value.role in allowed)
    ensures Guard(u, allowed) == Guard(w, allowed)
  {
    if u.Some? {
      assert Guard(u, allowed).Children? <==> Guard(w, allowed).Children?;
    }
  }

  /**
   * Against a non-empty list the client guard and the server's gate agree on a logged-in user
   * whose token verifies; against the empty list the guard denies everybody where the gate admits
   * everybody.
   */
  lemma GuardAgreesWithGate(s: Session, allowed: seq<string>)
    ensures allowed != [] ==> (Guard(Some(s), allowed).Children? <==> Gate(Token(true, s.role), allowed).Admit?)
    ensures allowed == [] ==> Guard(Some(s), allowed).AccessDenied? && Gate(Token(true, s.role), allowed).Admit?
  {
  }
}
