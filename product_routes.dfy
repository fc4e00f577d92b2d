/**
 * The product endpoints (backend/back/routes/productRoutes.js): list, create, the merging
 * update, the stock-only update and delete, over a map from id to product.
 */
module ProductRoutes {
  import opened Wrappers
  import opened Http
  import opened ProductModel
  import opened AuthGate
  import Listing
  import OrderModel

  /**
   * JavaScript falsiness of a text field: absent or empty. It is exactly the failure of the
   * schema's `required` check on a string.
   */
  predicate FalsyText(s: Option<string>): (falsy: bool)
    ensures falsy <==> !OrderModel.RequiredText(s)
  {
    s.None? || s.value == ""
  }

  /** JavaScript falsiness of a number field: absent or zero, so a present 0 counts as missing. */
  predicate FalsyNumber(n: Option<int>): (falsy: bool)
    ensures n.None? ==> falsy
    ensures n == Some(0) ==> falsy
    ensures falsy ==> n.GetOr(0) == 0
  {
    n.None? || n.value == 0
  }

  /**
   * The field assignments of the update handler: name, price and description are replaced only
   * by a truthy value (`body.x || product.x`); stock and minStock are replaced by any value that
   * is present (`body.x !== undefined ? body.x : product.x`).
   */
  function Merge(p: Product, body: ProductInput): (q: Product)
    ensures q.id == p.id
    ensures WellFormed(p) ==> WellFormed(q)
    ensures !FalsyText(body.name) ==> q.name == body.name.value
    ensures !FalsyNumber(body.price) ==> q.price == body.price.value
    ensures !FalsyText(body.description) ==> q.description == body.description
    ensures q.stock == body.stock.GetOr(p.stock) && q.minStock == body.minStock.GetOr(p.minStock)
  {
    p.(name := if FalsyText(body.name) then p.name else body.name.value,
       price := if FalsyNumber(body.price) then p.price else body.price.value,
       stock := if body.stock.Some? then body.stock.value else p.stock,
       minStock := if body.minStock.Some? then body.minStock.value else p.minStock,
       description := if FalsyText(body.description) then p.description else body.description)
  }

  /**
   * A falsy name, price or description leaves the old value: the update cannot set the price to
   * 0 (a present 0 is falsy), clear the name or blank the description.
   */
  lemma MergeKeepsOnFalsy(p: Product, body: ProductInput)
    ensures FalsyText(body.name) ==> Merge(p, body).name == p.name
    ensures FalsyNumber(body.price) ==> Merge(p, body).price == p.price
    ensures FalsyText(body.description) ==> Merge(p, body).description == p.description
  {
  }

  /**
   * Stock and minStock are taken whenever present, 0 included, and kept only when absent; unlike
   * price, a stock of 0 can be set through this endpoint.
   */
  lemma MergeTakesPresentStock(p: Product, body: ProductInput)
    ensures body.stock.Some? ==> Merge(p, body).stock == body.stock.value
    ensures body.stock.None? ==> Merge(p, body).stock == p.stock
    ensures body.minStock.Some? ==> Merge(p, body).minStock == body.minStock.value
    ensures body.minStock.None? ==> Merge(p, body).minStock == p.minStock
  {
  }

  /** Sending the same update twice gives the same product as sending it once. */
  lemma MergeIdempotent(p: Product, body: ProductInput)
    ensures Merge(Merge(p, body), body) == Merge(p, body)
  {
  }

  /** An empty body changes nothing. */
  lemma MergeEmptyBody(p: Product)
    ensures Merge(p, ProductInput(None, None, None, None, None)) == p
  {
  }

  /** The product collection. */
  class ProductStore {
    var products: map<nat, Product>
    var nextId: nat  // stands for the store's id generator

    /** Every stored product sits under its own id, below the next fresh id, and has a name. */
    ghost predicate Valid()
      reads this
    {
      forall id :: id in products ==> id < nextId && products[id].id == id && WellFormed(products[id])
    }

    constructor ()
      ensures Valid() && products == map[] && nextId == 0
    {
      products := map[];
      nextId := 0;
    }

    /** GET /: every stored product, each once, in id order, for any caller with a valid token. */
    function List(c: Credential): (r: Reply<seq<Product>>)
      reads this
      requires Valid()
      ensures r.Ok? <==> Gate(c, Roles(ListProducts)).Admit?
      ensures r.Ok? ==> |r.value| == |products| && (forall p :: p in r.value <==> p in products.Values)
                        && forall i, j :: 0 <= i < j < |r.value| ==> r.value[i].id < r.value[j].id
    {
      match Gate(c, Roles(ListProducts))
      case Refuse(f) => Fail(f)
      case Admit(_) =>
        Listing.ListsWholeStore(products, nextId);
        Listing.BelowAscending(products, nextId, (p: Product) => p.id);
        Ok(Listing.Below(products, nextId))
    }

    /** POST /: admin or manager; a new product from the body, or a 500 if the schema refuses it. */
    method Create(c: Credential, input: ProductInput) returns (r: Reply<Product>)
      requires Valid()
      modifies this
      ensures Valid()
      ensures Gate(c, Roles(CreateProduct)).Refuse? ==> r == Fail(Gate(c, Roles(CreateProduct)).failure)
      ensures Gate(c, Roles(CreateProduct)).Admit? ==>
                r == (match BuildProduct(input, old(nextId))
                      case Some(p) => Ok(p)
                      case None => Fail(ServerError))
      ensures r.Ok? ==> r.value.id !in old(products) && products == old(products)[r.value.id := r.value]
                        && nextId == old(nextId) + 1
      ensures r.Fail? ==> products == old(products) && nextId == old(nextId)
    {
      var v := Gate(c, Roles(CreateProduct));
      if v.Refuse? {
        return Fail(v.failure);
      }
      match BuildProduct(input, nextId)
      case None =>
        r := Fail(ServerError);
      case Some(p) =>
        products := products[nextId := p];
        nextId := nextId + 1;
        r := Ok(p);
    }

    /** PUT /:id: admin or manager; 404 for an unknown id, otherwise the merged product is saved. */
    method Update(c: Credential, id: nat, body: ProductInput) returns (r: Reply<Product>)
      requires Valid()
      modifies this
      ensures Valid() && nextId == old(nextId)
      ensures Gate(c, Roles(UpdateProduct)).Refuse? ==> r == Fail(Gate(c, Roles(UpdateProduct)).failure)
      ensures Gate(c, Roles(UpdateProduct)).Admit? && id !in old(products) ==> r == Fail(NotFound("Product not found"))
      ensures Gate(c, Roles(UpdateProduct)).Admit? && id in old(products) ==> r == Ok(Merge(old(products)[id], body))
      ensures products == if r.Ok? then old(products)[id := r.value] else old(products)
    {
      var v := Gate(c, Roles(UpdateProduct));
      if v.Refuse? {
        return Fail(v.failure);
      }
      if id !in products {
        return Fail(NotFound("Product not found"));
      }
      var p := Merge(products[id], body);
      products := products[id := p];
      r := Ok(p);
    }

    /**
     * PUT /:id/stock: any of the three roles; 404 for an unknown id is checked before 400 for a
     * missing stock value; otherwise only the stock changes, to the value given, unchecked.
     */
    method UpdateStock(c: Credential, id: nat, stock: Option<int>) returns (r: Reply<Product>)
      requires Valid()
      modifies this
      ensures Valid() && nextId == old(nextId)
      ensures Gate(c, Roles(UpdateProductStock)).Refuse? ==> r == Fail(Gate(c, Roles(UpdateProductStock)).failure)
      ensures Gate(c, Roles(UpdateProductStock)).Admit? && id !in old(products) ==> r == Fail(NotFound("Product not found"))
      ensures Gate(c, Roles(UpdateProductStock)).Admit? && id in old(products) && stock.None? ==>
                r == Fail(BadRequest("Stock value required"))
      ensures Gate(c, Roles(UpdateProductStock)).Admit? && id in old(products) && stock.Some? ==>
                r == Ok(old(products)[id].(stock := stock.value))
      ensures products == if r.Ok? then old(products)[id := r.value] else old(products)
    {
      var v := Gate(c, Roles(UpdateProductStock));
      if v.Refuse? {
        return Fail(v.failure);
      }
      if id !in products {
        return Fail(NotFound("Product not found"));
      }
      if stock.None? {
        return Fail(BadRequest("Stock value required"));
      }
      var p := products[id].(stock := stock.value);
      products := products[id := p];
      r := Ok(p);
    }

    /** DELETE /:id: admin only; 404 for an unknown id, otherwise exactly that product goes. */
    method Delete(c: Credential, id: nat) returns (r: Reply<string>)
      requires Valid()
      modifies this
      ensures Valid() && nextId == old(nextId)
      ensures Gate(c, Roles(DeleteProduct)).Refuse? ==> r == Fail(Gate(c, Roles(DeleteProduct)).failure)
      ensures Gate(c, Roles(DeleteProduct)).Admit? && id !in old(products) ==> r == Fail(NotFound("Product not found"))
      ensures Gate(c, Roles(DeleteProduct)).Admit? && id in old(products) ==> r == Ok("Product removed")
      ensures products == if r.Ok? then old(products) - {id} else old(products)
    {
      var v := Gate(c, Roles(DeleteProduct));
      if v.Refuse? {
        return Fail(v.failure);
      }
      if id !in products {
        return Fail(NotFound("Product not found"));
      }
      products := products - {id};
      r := Ok("Product removed");
    }
  }
}
