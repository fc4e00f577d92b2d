/**
 * The order schema (backend/back/models/order.js): a customer name, line items that copy the
 * product's name and price at ordering time, a total, a five-value status defaulting to Pending,
 * and a creation time defaulting to the current time.
 */
module OrderModel {
  import opened Wrappers

  datatype Status = Pending | Approved | Rejected | Packed | Shipped

  /** The status's name in the schema's enum. */
  function StatusName(s: Status): string {
    match s
    case Pending => "Pending"
    case Approved => "Approved"
    case Rejected => "Rejected"
    case Packed => "Packed"
    case Shipped => "Shipped"
  }

  /** The schema's enum, in declaration order. */
  const AllStatuses: seq<Status> := [Pending, Approved, Rejected, Packed, Shipped]

  /** The enum check on save: the status a name denotes, if it is one of the five. */
  function ParseStatus(name: string): (r: Option<Status>)
    ensures r.Some? ==> StatusName(r.value) == name
    ensures r.None? ==> forall s :: StatusName(s) != name
  {
    if name == "Pending" then Some(Pending)
    else if name == "Approved" then Some(Approved)
    else if name == "Rejected" then Some(Rejected)
    else if name == "Packed" then Some(Packed)
    else if name == "Shipped" then Some(Shipped)
    else None
  }

  /** Naming a status and reading the name back gives the status again; the enum lists each once. */
  lemma StatusNameRoundTrip(s: Status)
    ensures ParseStatus(StatusName(s)) == Some(s)
    ensures s in AllStatuses
  {
  }

  /**
   * A line item: the product it refers to, and the product's name and unit price as they were
   * when the order was placed. They are plain values, not references to the product record.
   */
  datatype LineItem = LineItem(product: nat, name: string, quantity: int, price: int)

  /** A stored order. `createdAt` is a timestamp; `id` is the document's key. */
  datatype Order = Order(id: nat, customerName: string, items: seq<LineItem>, totalAmount: int,
                         status: Status, createdAt: nat)

  /** A line item as the request body gives it; absent fields are `None`. */
  datatype ItemInput = ItemInput(product: Option<nat>, name: Option<string>, quantity: Option<int>, price: Option<int>)

  /**
   * A create-order request body. `items` absent is the empty list (the schema's array default);
   * `status` is whatever the body carries, which the create handler never reads.
   */
  datatype OrderInput = OrderInput(customerName: Option<string>, items: seq<ItemInput>,
                                   totalAmount: Option<int>, status: Option<string>)

  /** A required string is present and non-empty; a required number is present (0 is fine). */
  predicate RequiredText(s: Option<string>) { s.Some? && s.value != "" }

  /** Every required field of a line item is there. */
  predicate CompleteItem(i: ItemInput) {
    i.product.Some? && RequiredText(i.name) && i.quantity.Some? && i.price.Some?
  }

  /** What the schema demands of a stored order. */
  predicate WellFormed(o: Order) {
    o.customerName != "" && forall k :: 0 <= k < |o.items| ==> o.items[k].name != ""
  }

  /** The line items built from the body, or `None` when one of them lacks a required field. */
  function BuildItems(inputs: seq<ItemInput>): (r: Option<seq<LineItem>>)
    ensures r.Some? <==> forall k :: 0 <= k < |inputs| ==> CompleteItem(inputs[k])
    ensures r.Some? ==> |r.value| == |inputs|
    ensures r.Some? ==> forall k :: 0 <= k < |inputs| ==>
              r.value[k] == LineItem(inputs[k].product.value, inputs[k].name.value,
                                     inputs[k].quantity.value, inputs[k].price.value)
  {
    if inputs == [] then Some([])
    else
      var i := inputs[0];
      match BuildItems(inputs[1..])
      case None => None
      case Some(rest) =>
        if CompleteItem(i) then Some([LineItem(i.product.value, i.name.value, i.quantity.value, i.price.value)] + rest)
        else None
  }

  /**
   * `new Order({ customerName, items, totalAmount })` followed by the validation on save: the
   * status takes its default and the creation time is `now`. `None` is a validation failure.
   */
  function BuildOrder(input: OrderInput, id: nat, now: nat): (r: Option<Order>)
    ensures r.Some? <==> RequiredText(input.customerName) && input.totalAmount.Some?
                         && forall k :: 0 <= k < |input.items| ==> CompleteItem(input.items[k])
    ensures r.Some? ==> WellFormed(r.value)
    ensures r.Some? ==> r.value.id == id && r.value.status == Pending && r.value.createdAt == now
                        && r.value.customerName == input.customerName.value
                        && r.value.totalAmount == input.totalAmount.value
                        && BuildItems(input.items) == Some(r.value.items)
  {
    match BuildItems(input.items)
    case None => None
    case Some(items) =>
      if RequiredText(input.customerName) && input.totalAmount.Some? then
        Some(Order(id, input.customerName.value, items, input.totalAmount.value, Pending, now))
      else None
  }

  /** The total is stored as supplied, not recomputed: items and total need not agree. */
  lemma TotalNotRecomputed(id: nat, now: nat)
    ensures var input := OrderInput(Some("Alice"), [ItemInput(Some(1), Some("Mouse"), Some(2), Some(25))], Some(1), None);
            BuildOrder(input, id, now).Some? && BuildOrder(input, id, now).value.totalAmount == 1
  {
  }

  /** A status in the body does not reach the new order: it starts Pending whatever it says. */
  lemma CreateIgnoresBodyStatus(input: OrderInput, id: nat, now: nat)
    requires BuildOrder(input, id, now).Some?
    ensures BuildOrder(input.(status := None), id, now) == BuildOrder(input, id, now)
    ensures BuildOrder(input, id, now).value.status == Pending
  {
  }
}
