/**
 * Properties of the route handlers that involve more than one call or more than one collection:
 * repeated deletes, and the independence of stored orders from later product edits.
 */
module StoreProperties {
  import opened Wrappers
  import opened Http
  import opened AuthGate
  import opened ProductModel
  import opened OrderRoutes
  import opened ProductRoutes
  import opened UserRoutes

  /** Deleting an order twice answers the same and leaves the same collection as deleting it once. */
  method DeleteOrderTwice(store: OrderStore, c: Credential, id: nat) returns (first: Reply<string>, second: Reply<string>)
    requires store.Valid()
    modifies store
    ensures store.Valid() && first == second
    ensures store.orders == if first.Ok? then old(store.orders) - {id} else old(store.orders)
  {
    first := store.Delete(c, id);
    second := store.Delete(c, id);
  }

  /** Deleting a user twice answers the same and leaves the same collection as deleting it once. */
  method DeleteUserTwice(store: UserStore, c: Credential, id: nat) returns (first: Reply<string>, second: Reply<string>)
    requires store.Valid()
    modifies store
    ensures store.Valid() && first == second
    ensures store.users == if first.Ok? then old(store.users) - {id} else old(store.users)
  {
    first := store.Delete(c, id);
    second := store.Delete(c, id);
  }

  /**
   * An order's line items hold copies of the product's name and price: editing or deleting the
   * product afterwards leaves every stored order as it was.
   */
  method EditProductKeepsOrders(products: ProductStore, orders: OrderStore, c: Credential, id: nat, body: ProductInput)
    returns (edited: Reply<Product>, removed: Reply<string>)
    requires products.Valid() && orders.Valid()
    modifies products
    ensures products.Valid() && orders.Valid()
    ensures orders.orders == old(orders.orders)
    ensures id !in products.products
  {
    edited := products.Update(c, id, body);
    removed := products.Delete(Token(true, "admin"), id);
  }
}
