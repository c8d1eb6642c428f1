/**
 * The inventory view (src/components/inventory-management.tsx): its three-way product
 * filter, the category list, status counts, stock value and the alert banners.
 * A product's status is a stored label; nothing derives it from the stock levels.
 */
module Inventory {
  import opened Wrappers
  import opened Lists
  import opened Text
  import opened JsNumber

  datatype StockStatus = InStock | LowStock | OutOfStock | Overstock
  datatype Velocity = Fast | MediumVelocity | Slow

  /** A product; `lastRestocked` is in milliseconds since the epoch. */
  datatype Product = Product(id: string, name: string, sku: string, category: string,
                             currentStock: int, minStock: int, maxStock: int,
                             costPrice: real, sellingPrice: real, supplier: string,
                             lastRestocked: int, daysToReorder: int,
                             status: StockStatus, velocity: Velocity)

  function StatusName(s: StockStatus): string
  {
    match s
    case InStock => "in-stock"
    case LowStock => "low-stock"
    case OutOfStock => "out-of-stock"
    case Overstock => "overstock"
  }

  /**
   * A product passes when its name or SKU contains the query ignoring case, its
   * category is the selected one or 'All' is selected, and likewise for its status.
   */
  predicate ProductMatches(p: Product, searchQuery: string, selectedCategory: string, selectedStatus: string)
  {
    && (ContainsIgnoreCase(p.name, searchQuery) || ContainsIgnoreCase(p.sku, searchQuery))
    && (selectedCategory == "All" || p.category == selectedCategory)
    && (selectedStatus == "All" || StatusName(p.status) == selectedStatus)
  }

  function FilteredProducts(ps: seq<Product>, searchQuery: string, selectedCategory: string,
                            selectedStatus: string): (r: seq<Product>)
    ensures Sublist(r, ps)
    ensures forall p :: p in r <==> p in ps && ProductMatches(p, searchQuery, selectedCategory, selectedStatus)
    ensures forall p :: multiset(r)[p] == if ProductMatches(p, searchQuery, selectedCategory, selectedStatus) then multiset(ps)[p] else 0
  {
    FilterSublist(ps, p => ProductMatches(p, searchQuery, selectedCategory, selectedStatus));
    Filter(ps, p => ProductMatches(p, searchQuery, selectedCategory, selectedStatus))
  }

  /** An empty search with 'All' categories and statuses lists every product. */
  lemma FilteredProductsAll(ps: seq<Product>)
    ensures FilteredProducts(ps, "", "All", "All") == ps
  {
    forall i | 0 <= i < |ps| ensures ProductMatches(ps[i], "", "All", "All") {
      assert Lower("") == "";
      ContainsEmpty(Lower(ps[i].name));
    }
    FilterAll(ps, p => ProductMatches(p, "", "All", "All"));
  }

  /** `products.map(p => p.category)`. */
  function CategoryColumn(ps: seq<Product>): (r: seq<string>)
    ensures |r| == |ps| && forall i :: 0 <= i < |ps| ==> r[i] == ps[i].category
  {
    seq(|ps|, i requires 0 <= i < |ps| => ps[i].category)
  }

  /**
   * `['All', ...Array.from(new Set(products.map(p => p.category)))]`: 'All', then each
   * category once, ordered by where it first occurs.
   */
  function Categories(ps: seq<Product>): (r: seq<string>)
    ensures |r| >= 1 && r[0] == "All"
    ensures r[1..] == Distinct(CategoryColumn(ps))
    ensures forall c :: c in r[1..] <==> exists i :: 0 <= i < |ps| && ps[i].category == c
    ensures NoDuplicates(r[1..])
  {
    var cats := CategoryColumn(ps);
    var d := Distinct(cats);
    forall c ensures c in cats <==> exists i :: 0 <= i < |ps| && ps[i].category == c {
      if c in cats {
        var i :| 0 <= i < |cats| && cats[i] == c;
        assert ps[i].category == c;
      }
      if i :| 0 <= i < |ps| && ps[i].category == c {
        assert cats[i] == c;
      }
    }
    assert (["All"] + d)[1..] == d;
    ["All"] + d
  }

  predicate IsLowStock(p: Product) { p.status == LowStock }
  predicate IsOutOfStock(p: Product) { p.status == OutOfStock }
  predicate IsCritical(p: Product) { p.status == OutOfStock || p.status == LowStock }
  predicate IsFastMoving(p: Product) { p.velocity == Fast }
  predicate IsSlowMoving(p: Product) { p.velocity == Slow }

  function LowStockCount(ps: seq<Product>): nat { Count(ps, IsLowStock) }
  function OutOfStockCount(ps: seq<Product>): nat { Count(ps, IsOutOfStock) }

  /** `criticalItems`: the out-of-stock and low-stock products, in order. */
  function CriticalItems(ps: seq<Product>): (r: seq<Product>)
    ensures Sublist(r, ps)
    ensures forall p :: p in r <==> p in ps && (p.status == OutOfStock || p.status == LowStock)
    ensures forall p :: multiset(r)[p] == if (p.status == OutOfStock || p.status == LowStock) then multiset(ps)[p] else 0
  {
    FilterSublist(ps, IsCritical);
    Filter(ps, IsCritical)
  }

  function FastMovingItems(ps: seq<Product>): (r: seq<Product>)
    ensures Sublist(r, ps)
    ensures forall p :: p in r <==> p in ps && p.velocity == Fast
    ensures forall p :: multiset(r)[p] == if p.velocity == Fast then multiset(ps)[p] else 0
  {
    FilterSublist(ps, IsFastMoving);
    Filter(ps, IsFastMoving)
  }

  function SlowMovingItems(ps: seq<Product>): (r: seq<Product>)
    ensures Sublist(r, ps)
    ensures forall p :: p in r <==> p in ps && p.velocity == Slow
    ensures forall p :: multiset(r)[p] == if p.velocity == Slow then multiset(ps)[p] else 0
  {
    FilterSublist(ps, IsSlowMoving);
    Filter(ps, IsSlowMoving)
  }

  /** The "Stock Alerts" card shows as many products as the critical list holds. */
  lemma {:induction false} AlertCountIsCritical(ps: seq<Product>)
    ensures LowStockCount(ps) + OutOfStockCount(ps) == |CriticalItems(ps)|
    decreases |ps|
  {
    if ps != [] { AlertCountIsCritical(ps[1..]); }
  }

  function StockValue(p: Product): real { p.currentStock as real * p.costPrice }

  /** `products.reduce((sum, p) => sum + p.currentStock * p.costPrice, 0)`. */
  function TotalValue(ps: seq<Product>): real
  {
    Sum(ps, StockValue)
  }

  /** With non-negative stock and cost the inventory value is non-negative. */
  lemma TotalValueNonNegative(ps: seq<Product>)
    requires forall i :: 0 <= i < |ps| ==> ps[i].currentStock >= 0 && ps[i].costPrice >= 0.0
    ensures TotalValue(ps) >= 0.0
  {
    SumNonNegative(ps, StockValue);
  }

  /** Adding one product to the list raises the value by that product's stock value. */
  lemma TotalValueAppend(ps: seq<Product>, p: Product)
    ensures TotalValue(ps + [p]) == TotalValue(ps) + StockValue(p)
  {
    SumAppend(ps, [p], StockValue);
    SumCons(p, [], StockValue);
  }

  /** Two texts with the same prefix are equal only when the rests are. */
  lemma PrefixCancel(p: string, a: string, b: string)
    ensures p + a == p + b <==> a == b
  {
    if p + a == p + b {
      assert a == (p + a)[|p|..] && b == (p + b)[|p|..];
    }
  }

  /** "{n} product{s are| is} out of stock", shown only when n > 0. */
  function OutOfStockAlert(count: nat): (r: Option<string>)
    ensures r.Some? <==> count > 0
    ensures r.Some? ==> (r.value == NatToString(count) + " products are out of stock" <==> count > 1)
  {
    if count > 0 then
      var tail := if count > 1 then " products are out of stock" else " product is out of stock";
      assert " product is out of stock"[8] != " products are out of stock"[8];
      PrefixCancel(NatToString(count), tail, " products are out of stock");
      Some(NatToString(count) + tail)
    else None
  }

  /** "{n} product{s need| needs} restocking soon", shown only when n > 0. */
  function LowStockAlert(count: nat): (r: Option<string>)
    ensures r.Some? <==> count > 0
    ensures r.Some? ==> (r.value == NatToString(count) + " products need restocking soon" <==> count > 1)
  {
    if count > 0 then
      var tail := if count > 1 then " products need restocking soon" else " product needs restocking soon";
      assert " product needs restocking soon"[8] != " products need restocking soon"[8];
      PrefixCancel(NatToString(count), tail, " products need restocking soon");
      Some(NatToString(count) + tail)
    else None
  }

  /** The alert section appears when either count is positive. */
  predicate ShowsAlerts(ps: seq<Product>)
  {
    OutOfStockCount(ps) > 0 || LowStockCount(ps) > 0
  }

  /** The alert section appears exactly when some product is critical. */
  lemma AlertsIffCritical(ps: seq<Product>)
    ensures ShowsAlerts(ps) <==> exists i :: 0 <= i < |ps| && IsCritical(ps[i])
  {
    AlertCountIsCritical(ps);
    if ShowsAlerts(ps) {
      var c := CriticalItems(ps);
      assert c[0] in ps;
    }
  }
}
