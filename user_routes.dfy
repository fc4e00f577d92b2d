/**
 * The user collection and its endpoints (backend/back/routes/userRoutes.js): an admin-only list
 * that leaves out the password, and an admin-only delete. Insertion is where the schema's unique
 * email index is enforced.
 */
module UserRoutes {
  import opened Wrappers
  import opened Http
  import opened UserModel
  import opened AuthGate
  import Listing

  /** A user as the list returns it: every field but the password. */
  datatype PublicUser = PublicUser(id: nat, name: Option<string>, email: Option<string>, role: Role)

  /** `select("-password")`: the user without the password field. */
  function WithoutPassword(u: User): (p: PublicUser)
    ensures p.id == u.id && p.name == u.name && p.email == u.email && p.role == u.role
  {
    PublicUser(u.id, u.name, u.email, u.role)
  }

  /** Two users that differ only in their password look the same once it is left out. */
  lemma PasswordNotDisclosed(u: User, password: Option<string>)
    ensures WithoutPassword(u.(password := password)) == WithoutPassword(u)
  {
  }

  /** The projection, element by element. */
  function WithoutPasswords(us: seq<User>): (r: seq<PublicUser>)
    ensures |r| == |us| && forall k :: 0 <= k < |us| ==> r[k] == WithoutPassword(us[k])
  {
    if us == [] then [] else [WithoutPassword(us[0])] + WithoutPasswords(us[1..])
  }

  /** The user collection. */
  class UserStore {
    var users: map<nat, User>
    var nextId: nat  // stands for the store's id generator

    /** Every stored user sits under its own id, below the next fresh id; emails are unique. */
    ghost predicate Valid()
      reads this
    {
      && (forall id :: id in users ==> id < nextId && users[id].id == id)
      && UniqueEmails(users)
    }

    constructor ()
      ensures Valid() && users == map[] && nextId == 0
    {
      users := map[];
      nextId := 0;
    }

    /**
     * Saving a new user document: refused (and nothing stored) when the role is not in the enum or
     * another user already has the email; otherwise stored with role staff unless one is given.
     */
    method Insert(input: UserInput) returns (r: Reply<User>)
      requires Valid()
      modifies this
      ensures Valid()
      ensures r.Ok? <==> BuildUser(input, old(nextId)).Some? && !EmailTaken(old(users), input.email)
      ensures r.Ok? ==> r == Ok(BuildUser(input, old(nextId)).value) && r.value.id !in old(users)
                        && users == old(users)[r.value.id := r.value] && nextId == old(nextId) + 1
      ensures r.Fail? ==> r.failure == ServerError && users == old(users) && nextId == old(nextId)
    {
      match BuildUser(input, nextId)
      case None =>
        r := Fail(ServerError);
      case Some(u) =>
        if EmailTaken(users, u.email) {
          r := Fail(ServerError);
        } else {
          users := users[nextId := u];
          nextId := nextId + 1;
          r := Ok(u);
        }
    }

    /** GET /: admin only; every stored user once, each without its password. */
    function List(c: Credential): (r: Reply<seq<PublicUser>>)
      reads this
      requires Valid()
      ensures r.Ok? <==> Gate(c, Roles(ListUsers)).Admit?
      ensures r.Ok? ==> |r.value| == |users|
                        && (forall u :: u in users.Values ==> WithoutPassword(u) in r.value)
                        && (forall p :: p in r.value ==> exists u :: u in users.Values && p == WithoutPassword(u))
    {
      match Gate(c, Roles(ListUsers))
      case Refuse(f) => Fail(f)
      case Admit(_) =>
        var all := Listing.Below(users, nextId);
        Listing.ListsWholeStore(users, nextId);
        var listed := WithoutPasswords(all);
        assert forall u :: u in users.Values ==> WithoutPassword(u) in listed by {
          forall u | u in users.Values ensures WithoutPassword(u) in listed {
            var k :| 0 <= k < |all| && all[k] == u;
            assert listed[k] == WithoutPassword(u);
          }
        }
        assert forall p :: p in listed ==> exists u :: u in users.Values && p == WithoutPassword(u) by {
          forall p | p in listed ensures exists u :: u in users.Values && p == WithoutPassword(u) {
            var k :| 0 <= k < |listed| && listed[k] == p;
            assert all[k] in all;
          }
        }
        Ok(listed)
    }

    /**
     * DELETE /:id: admin only; removes the user with that id, if any, and nobody else, and reports
     * "User removed" either way.
     */
    method Delete(c: Credential, id: nat) returns (r: Reply<string>)
      requires Valid()
      modifies this
      ensures Valid() && nextId == old(nextId)
      ensures r.Ok? <==> Gate(c, Roles(DeleteUser)).Admit?
      ensures r.Ok? ==> r.value == "User removed" && users == old(users) - {id}
      ensures r.Fail? ==> r.failure == Gate(c, Roles(DeleteUser)).failure && users == old(users)
    {
      var v := Gate(c, Roles(DeleteUser));
      if v.Refuse? {
        return Fail(v.failure);
      }
      users := users - {id};
      r := Ok("User removed");
    }
  }
}
