/**
 * The order endpoints (backend/back/routes/orderRoutes.js): create, list newest first, the
 * role-checked status change, and delete. The collection is a map from id to order.
 */
module OrderRoutes {
  import opened Wrappers
  import opened Http
  import opened UserModel
  import opened OrderModel
  import opened AuthGate
  import Listing

  /** The decision of the status handler: go on to the write, or answer with a failure. */
  datatype Decision = Permit | Deny(failure: Failure)

  /**
   * The role-based validation of the status handler, from the caller's role, the order's current
   * status and the requested status name. Staff may only pack approved orders; a manager may
   * approve or reject pending orders and ship packed ones; any other role is not checked.
   */
  function Authorize(role: string, current: Status, requested: string): (d: Decision)
    ensures role != RoleName(Staff) && role != RoleName(Manager) ==> d == Permit
    ensures d.Deny? ==> d.failure.Code() in {400, 403}
    ensures d.Deny? && d.failure.Code() == 400 ==> role == RoleName(Manager)
  {
    if role == RoleName(Staff) then
      if current != Approved || requested != StatusName(Packed) then
        Deny(Forbidden("Staff can only mark Approved orders as Packed"))
      else Permit
    else if role == RoleName(Manager) then
      if requested == StatusName(Approved) || requested == StatusName(Rejected) then
        if current != Pending then Deny(BadRequest("Can only approve/reject Pending orders")) else Permit
      else if requested == StatusName(Shipped) then
        if current != Packed then Deny(BadRequest("Can only ship Packed orders")) else Permit
      else Deny(Forbidden("Invalid status transition for Manager"))
    else Permit
  }

  /**
   * The transition table as a relation, stated independently of `Authorize`: staff packs approved
   * orders, a manager approves or rejects pending orders and ships packed ones, an admin may set
   * any status from any status.
   */
  predicate Matrix(role: Role, from: Status, to: Status) {
    match role
    case Staff => from == Approved && to == Packed
    case Manager => (from == Pending && to in {Approved, Rejected}) || (from == Packed && to == Shipped)
    case Admin => true
  }

  /** For the three roles and any status of the enum, `Authorize` permits exactly the table. */
  lemma {:induction false} AuthorizeMatchesMatrix(role: Role, from: Status, to: Status)
    ensures Authorize(RoleName(role), from, StatusName(to)) == Permit <==> Matrix(role, from, to)
  {
    match role
    case Staff => StaffMatchesMatrix(from, to);
    case Manager => ManagerMatchesMatrix(from, to);
    case Admin =>
  }

  lemma {:induction false} StaffMatchesMatrix(from: Status, to: Status)
    ensures Authorize(RoleName(Staff), from, StatusName(to)) == Permit <==> Matrix(Staff, from, to)
  {
    match to
    case Pending =>
    case Approved =>
    case Rejected =>
    case Packed =>
    case Shipped =>
  }

  lemma {:induction false} ManagerMatchesMatrix(from: Status, to: Status)
    ensures Authorize(RoleName(Manager), from, StatusName(to)) == Permit <==> Matrix(Manager, from, to)
  {
    match to
    case Pending =>
    case Approved =>
    case Rejected =>
    case Packed =>
    case Shipped =>
  }

  /** Staff: success exactly for Approved to Packed, and 403 for everything else. */
  lemma StaffRule(current: Status, requested: string)
    ensures Authorize(RoleName(Staff), current, requested) == Permit
            <==> current == Approved && requested == StatusName(Packed)
    ensures Authorize(RoleName(Staff), current, requested) != Permit
            ==> Authorize(RoleName(Staff), current, requested).failure.Code() == 403
  {
  }

  /**
   * Manager: asking for Approved or Rejected succeeds iff the order is Pending, else 400; asking
   * for Shipped succeeds iff it is Packed, else 400; asking for anything else is 403.
   */
  lemma ManagerRule(current: Status, requested: string)
    ensures var d := Authorize(RoleName(Manager), current, requested);
            && (requested in {StatusName(Approved), StatusName(Rejected)} ==>
                  (d == Permit <==> current == Pending) && (d != Permit ==> d.failure.Code() == 400))
            && (requested == StatusName(Shipped) ==>
                  (d == Permit <==> current == Packed) && (d != Permit ==> d.failure.Code() == 400))
            && (requested !in {StatusName(Approved), StatusName(Rejected), StatusName(Shipped)} ==>
                  d.Deny? && d.failure.Code() == 403)
  {
  }

  /** Rejected and Shipped are final for staff and managers: no request of theirs is permitted. */
  lemma TerminalForStaffAndManager(role: string, current: Status, requested: string)
    requires role in {RoleName(Staff), RoleName(Manager)}
    requires current in {Rejected, Shipped}
    ensures Authorize(role, current, requested).Deny?
  {
  }

  /** A role that staff and manager checks permit always asked for a status of the enum. */
  lemma {:induction false} PermittedStaffOrManagerNamesAStatus(role: string, current: Status, requested: string)
    requires role in {RoleName(Staff), RoleName(Manager)}
    requires Authorize(role, current, requested) == Permit
    ensures ParseStatus(requested).Some?
  {
    if role == RoleName(Staff) {
      assert requested == StatusName(Packed);
    } else {
      assert requested in {StatusName(Approved), StatusName(Rejected), StatusName(Shipped)};
    }
  }

  /**
   * The status handler after the order is loaded: the decision, then `order.status = status` and
   * the save, whose enum check turns an unknown status name into a 500.
   */
  function Transition(role: string, order: Order, requested: string): (r: Reply<Order>)
    ensures r.Ok? <==> Authorize(role, order.status, requested) == Permit && ParseStatus(requested).Some?
    ensures r.Ok? ==> r.value == order.(status := r.value.status) && StatusName(r.value.status) == requested
    ensures Authorize(role, order.status, requested).Deny? ==> r == Fail(Authorize(role, order.status, requested).failure)
  {
    match Authorize(role, order.status, requested)
    case Deny(f) => Fail(f)
    case Permit =>
      match ParseStatus(requested)
      case None => Fail(ServerError)
      case Some(s) => Ok(order.(status := s))
  }

  /** An admin sets any status of the enum from any current status, terminal ones included. */
  lemma AdminUnchecked(order: Order, to: Status)
    ensures Transition(RoleName(Admin), order, StatusName(to)) == Ok(order.(status := to))
  {
    StatusNameRoundTrip(to);
  }

  /** Orders listed newest first. */
  function Newest(o: Order): int { o.createdAt }

  /** The order collection. */
  class OrderStore {
    var orders: map<nat, Order>
    var nextId: nat  // stands for the store's id generator

    /** Every stored order sits under its own id, below the next fresh id, and satisfies the schema. */
    ghost predicate Valid()
      reads this
    {
      forall id :: id in orders ==> id < nextId && orders[id].id == id && WellFormed(orders[id])
    }

    constructor ()
      ensures Valid() && orders == map[] && nextId == 0
    {
      orders := map[];
      nextId := 0;
    }

    /**
     * POST /: the gate, then a new order from the body's customer name, items and total; it is
     * stored Pending with creation time `now`. A schema failure is a 500 and stores nothing.
     */
    method Create(c: Credential, input: OrderInput, now: nat) returns (r: Reply<Order>)
      requires Valid()
      modifies this
      ensures Valid()
      ensures Gate(c, Roles(CreateOrder)).Refuse? ==> r == Fail(Gate(c, Roles(CreateOrder)).failure)
      ensures Gate(c, Roles(CreateOrder)).Admit? ==>
                r == (match BuildOrder(input, old(nextId), now)
                      case Some(o) => Ok(o)
                      case None => Fail(ServerError))
      ensures r.Ok? ==> r.value.id !in old(orders) && orders == old(orders)[r.value.id := r.value]
                        && nextId == old(nextId) + 1
      ensures r.Fail? ==> orders == old(orders) && nextId == old(nextId)
    {
      var v := Gate(c, Roles(CreateOrder));
      if v.Refuse? {
        return Fail(v.failure);
      }
      match BuildOrder(input, nextId, now)
      case None =>
        r := Fail(ServerError);
      case Some(o) =>
        orders := orders[nextId := o];
        nextId := nextId + 1;
        r := Ok(o);
    }

    /**
     * GET /: every stored order, each once, with creation times non-increasing. Any caller with a
     * valid token may list.
     */
    function List(c: Credential): (r: Reply<seq<Order>>)
      reads this
      requires Valid()
      ensures r.Ok? <==> Gate(c, Roles(ListOrders)).Admit?
      ensures r.Ok? ==> |r.value| == |orders| && (forall o :: o in r.value <==> o in orders.Values)
                        && Listing.NonIncreasing(r.value, Newest)
    {
      match Gate(c, Roles(ListOrders))
      case Refuse(f) => Fail(f)
      case Admit(_) =>
        var all := Listing.Below(orders, nextId);
        Listing.ListsWholeStore(orders, nextId);
        var sorted := Listing.SortDesc(all, Newest);
        assert forall o :: o in sorted <==> o in multiset(all);
        assert |sorted| == |multiset(sorted)| == |multiset(all)| == |all|;
        Ok(sorted)
    }

    /**
     * PUT /:id/status: the gate, then 404 for an unknown id, then `Transition`. Only a success
     * writes, and it writes only the order's status.
     */
    method UpdateStatus(c: Credential, id: nat, requested: string) returns (r: Reply<Order>)
      requires Valid()
      modifies this
      ensures Valid() && nextId == old(nextId)
      ensures Gate(c, Roles(UpdateOrderStatus)).Refuse? ==> r == Fail(Gate(c, Roles(UpdateOrderStatus)).failure)
      ensures Gate(c, Roles(UpdateOrderStatus)).Admit? && id !in old(orders) ==> r == Fail(NotFound("Order not found"))
      ensures Gate(c, Roles(UpdateOrderStatus)).Admit? && id in old(orders) ==>
                r == Transition(Gate(c, Roles(UpdateOrderStatus)).role, old(orders)[id], requested)
      ensures orders == if r.Ok? then old(orders)[id := r.value] else old(orders)
    {
      var v := Gate(c, Roles(UpdateOrderStatus));
      if v.Refuse? {
        return Fail(v.failure);
      }
      if id !in orders {
        return Fail(NotFound("Order not found"));
      }
      r := Transition(v.role, orders[id], requested);
      if r.Ok? {
        orders := orders[id := r.value];
      }
    }

    /**
     * DELETE /:id: admin only; removes the order if there is one and reports "Order removed"
     * either way.
     */
    method Delete(c: Credential, id: nat) returns (r: Reply<string>)
      requires Valid()
      modifies this
      ensures Valid() && nextId == old(nextId)
      ensures r.Ok? <==> Gate(c, Roles(DeleteOrder)).Admit?
      ensures r.Ok? ==> r.value == "Order removed" && orders == old(orders) - {id}
      ensures r.Fail? ==> r.failure == Gate(c, Roles(DeleteOrder)).failure && orders == old(orders)
    {
      var v := Gate(c, Roles(DeleteOrder));
      if v.Refuse? {
        return Fail(v.failure);
      }
      orders := orders - {id};
      r := Ok("Order removed");
    }
  }

  /**
   * Through the status endpoint's gate, a successful change by any caller other than an admin
   * follows the transition table, and an admin's follows it trivially: every success is a step
   * of `Matrix` for the caller's role, and the creation time never changes.
   */
  lemma {:induction false} StatusChangeFollowsMatrix(c: Credential, order: Order, requested: string)
    requires Gate(c, Roles(UpdateOrderStatus)).Admit?
    requires Transition(c.role, order, requested).Ok?
    ensures ParseRole(c.role).Some?
    ensures var after := Transition(c.role, order, requested).value;
            Matrix(ParseRole(c.role).value, order.status, after.status) && after.createdAt == order.createdAt
  {
    EndpointAccess(UpdateOrderStatus, c.role);
    var role := ParseRole(c.role).value;
    var after := Transition(c.role, order, requested).value;
    assert StatusName(after.status) == requested;
    AuthorizeMatchesMatrix(role, order.status, after.status);
  }
}
