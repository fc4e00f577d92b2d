/**
 * The product schema (backend/back/models/product.js): a required name and price, a stock that
 * defaults to 0, an alert threshold `minStock` that defaults to 10, an optional description.
 */
module ProductModel {
  import opened Wrappers

  /** Prices and quantities are whole numbers here (minor units); nothing computes with them. */
  datatype Product = Product(id: nat, name: string, price: int, stock: int, minStock: int,
                             description: Option<string>)

  /** A product request body; absent fields are `None`. */
  datatype ProductInput = ProductInput(name: Option<string>, price: Option<int>, stock: Option<int>,
                                       minStock: Option<int>, description: Option<string>)

  const DefaultStock: int := 0
  const DefaultMinStock: int := 10

  /** What the schema demands of a stored product (the name is required, so not empty). */
  predicate WellFormed(p: Product) { p.name != "" }

  /**
   * `new Product({ name, price, stock, minStock, description })` and the validation on save:
   * `None` when the name is missing or empty or the price is missing; otherwise the defaults fill
   * in stock and minStock, and the description stays optional.
   */
  function BuildProduct(input: ProductInput, id: nat): (r: Option<Product>)
    ensures r.Some? <==> input.name.Some? && input.name.value != "" && input.price.Some?
    ensures r.Some? ==> WellFormed(r.value) && r.value.id == id
                        && r.value.name == input.name.value && r.value.price == input.price.value
                        && r.value.description == input.description
    ensures r.Some? ==> r.value.stock == (if input.stock.Some? then input.stock.value else 0)
    ensures r.Some? ==> r.value.minStock == (if input.minStock.Some? then input.minStock.value else 10)
  {
    if input.name.Some? && input.name.value != "" && input.price.Some? then
      Some(Product(id, input.name.value, input.price.value, input.stock.GetOr(DefaultStock),
                   input.minStock.GetOr(DefaultMinStock), input.description))
    else None
  }
}
