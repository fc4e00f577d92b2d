/**
 * The low-stock view both dashboards compute from the product list they fetched: the admin's
 * `stockAlerts` (frontend/src/pages/AdminDashboard.jsx) and the manager's `lowStock`
 * (frontend/src/pages/ManagerDashboard.jsx) are the same filter, with a badge on the tab and, for
 * the admin, a "No alerts." panel.
 */
module StockAlerts {
  import opened Wrappers
  import opened ProductModel

  /** A product is low on stock when its stock is strictly below its alert threshold. */
  predicate IsLow(p: Product): (low: bool)
    ensures p.stock == p.minStock ==> !low
    ensures low ==> p.stock <= p.minStock - 1
  {
    p.stock < p.minStock
  }

  /** `a` is `b` with some elements dropped and the rest kept in their order. */
  predicate IsSubsequence<T(==)>(a: seq<T>, b: seq<T>) {
    if a == [] then true
    else if b == [] then false
    else (a[0] == b[0] && IsSubsequence(a[1..], b[1..])) || IsSubsequence(a, b[1..])
  }

  /**
   * `products.filter((p) => p.stock < p.minStock)`: exactly the low products, in the order of the
   * list, each as often as it appears there.
   */
  function LowStock(products: seq<Product>): (r: seq<Product>)
    ensures forall p :: p in r <==> p in products && IsLow(p)
    ensures IsSubsequence(r, products)
    ensures forall p :: p in products && IsLow(p) ==> multiset(r)[p] == multiset(products)[p]
  {
    if products == [] then []
    else
      var rest := LowStock(products[1..]);
      assert products == [products[0]] + products[1..];
      if IsLow(products[0]) then
        var r := [products[0]] + rest;
        assert r[1..] == rest;
        r
      else rest
  }

  /** Filtering the filtered list again changes nothing. */
  lemma {:induction false} LowStockIdempotent(products: seq<Product>)
    ensures LowStock(LowStock(products)) == LowStock(products)
  {
    if products != [] {
      LowStockIdempotent(products[1..]);
      if IsLow(products[0]) {
        assert ([products[0]] + LowStock(products[1..]))[1..] == LowStock(products[1..]);
      }
    }
  }

  /** The count badge on the tab: shown exactly when some product is low, with the number of alerts. */
  function Badge(products: seq<Product>): (b: Option<nat>)
    ensures b.Some? <==> exists p :: p in products && IsLow(p)
    ensures b.Some? ==> b.value == |LowStock(products)| && b.value > 0
  {
    var alerts := LowStock(products);
    if |alerts| > 0 then
      assert alerts[0] in alerts;
      Some(|alerts|)
    else None
  }

  /** What the admin's alerts tab shows. */
  datatype AlertsPanel = NoAlerts | AlertTable(rows: seq<Product>)

  /** "No alerts." exactly when nothing is low, otherwise a table of the low products. */
  function Panel(products: seq<Product>): (v: AlertsPanel)
    ensures v.NoAlerts? <==> forall p :: p in products ==> !IsLow(p)
    ensures v.AlertTable? ==> v.rows == LowStock(products) && v.rows != []
  {
    var alerts := LowStock(products);
    if |alerts| == 0 then NoAlerts
    else
      assert alerts[0] in alerts;
      AlertTable(alerts)
  }

  /**
   * A product saved without `minStock` gets the threshold 10, so it is low exactly when its
   * stock is below 10; without `stock` either, it starts out low.
   */
  lemma DefaultThreshold(input: ProductInput, id: nat)
    requires BuildProduct(input, id).Some? && input.minStock.None?
    ensures IsLow(BuildProduct(input, id).value) <==> BuildProduct(input, id).value.stock < 10
    ensures input.stock.None? ==> IsLow(BuildProduct(input, id).value)
  {
  }

  /** The four products of the seed script, in insertion order. */
  const SeedProducts: seq<Product> := [
    Product(0, "Laptop", 1200, 50, 10, Some("High performance laptop")),
    Product(1, "Mouse", 25, 5, 10, Some("Wireless mouse")),
    Product(2, "Keyboard", 45, 100, 15, Some("Mechanical keyboard")),
    Product(3, "Monitor", 300, 8, 5, Some("4K Monitor"))
  ]

  /** On the seeded products only the mouse is low, so the badge shows 1. */
  lemma SeedAlerts()
    ensures LowStock(SeedProducts) == [SeedProducts[1]] && SeedProducts[1].name == "Mouse"
    ensures Badge(SeedProducts) == Some(1)
  {
    assert LowStock(SeedProducts[3..]) == [];
    assert LowStock(SeedProducts[2..]) == [];
    assert LowStock(SeedProducts[1..]) == [SeedProducts[1]];
  }
}
