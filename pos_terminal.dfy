/**
 * The point-of-sale terminal (src/components/pos-terminal.tsx): a cart of lines kept
 * per product id, checked against the catalog's stock, its 8% tax totals, barcode
 * scanning and the checkout gate.
 *
 * The cart transformers handed to `setCart` are pure functions here (AddItem,
 * RemoveItem, SetQuantity); the component's state and its event handlers are the
 * class Terminal.
 */
module PosTerminal {
  import opened Wrappers
  import opened Lists
  import opened Text

  datatype Product = Product(id: string, name: string, price: real, barcode: Option<string>,
                             category: string, stock: int)

  /** A cart line: the product as it was when first added, and how many units. */
  datatype CartItem = CartItem(product: Product, quantity: int)

  datatype PaymentMethod = Cash | Card | Mobile

  /** The sample catalog the terminal sells from. */
  const SampleProducts: seq<Product> := [
    Product("1", "Coca-Cola 330ml", 3.00, Some("123456789"), "Beverages", 45),
    Product("2", "Pringles Original", 2.99, Some("987654321"), "Snacks", 23),
    Product("3", "Samsung Galaxy Buds", 149.99, Some("456789123"), "Electronics", 8),
    Product("4", "Energy Drink", 4.50, Some("789123456"), "Beverages", 67),
    Product("5", "iPhone Charger", 29.99, Some("321654987"), "Electronics", 15),
    Product("6", "Protein Bar", 3.49, Some("654987321"), "Snacks", 34),
    Product("7", "Bottled Water", 1.50, Some("147258369"), "Beverages", 89),
    Product("8", "Phone Case", 19.99, Some("963852741"), "Electronics", 12)
  ]

  const TaxRate: real := 0.08

  // ---------------------------------------------------------------- catalog

  predicate UniqueProductIds(catalog: seq<Product>)
  {
    forall i, j :: 0 <= i < j < |catalog| ==> catalog[i].id != catalog[j].id
  }

  /** `catalog.find(p => p.id === id)`. */
  function FindProduct(catalog: seq<Product>, id: string): (r: Option<Product>)
    ensures r.Some? ==> r.value in catalog && r.value.id == id
    ensures r.Some? ==> exists k :: 0 <= k < |catalog| && catalog[k] == r.value &&
                          forall j :: 0 <= j < k ==> catalog[j].id != id
    ensures r.None? ==> forall i :: 0 <= i < |catalog| ==> catalog[i].id != id
    decreases |catalog|
  {
    if catalog == [] then None
    else if catalog[0].id == id then Some(catalog[0])
    else
      var rest := FindProduct(catalog[1..], id);
      assert rest.Some? ==> exists k :: 0 <= k < |catalog| && catalog[k] == rest.value &&
                              forall j :: 0 <= j < k ==> catalog[j].id != id by {
        if rest.Some? {
          var k :| 0 <= k < |catalog| - 1 && catalog[1..][k] == rest.value &&
                   forall j :: 0 <= j < k ==> catalog[1..][j].id != id;
          assert catalog[k + 1] == rest.value;
          forall j | 0 <= j < k + 1 ensures catalog[j].id != id {
            if j > 0 { assert catalog[j] == catalog[1..][j - 1]; }
          }
        }
      }
      rest
  }

  /** `catalog.find(p => p.id === id)?.stock || 0`: a product missing from the catalog has stock 0. */
  function StockOf(catalog: seq<Product>, id: string): int
  {
    match FindProduct(catalog, id)
    case Some(p) => p.stock
    case None => 0
  }

  /** In a catalog with unique ids, the stock looked up by a product's id is that product's stock. */
  lemma {:induction false} StockOfMember(catalog: seq<Product>, p: Product)
    requires UniqueProductIds(catalog) && p in catalog
    ensures StockOf(catalog, p.id) == p.stock
    decreases |catalog|
  {
    if catalog[0] != p {
      assert catalog[0].id != p.id by {
        var k :| 0 <= k < |catalog| && catalog[k] == p;
      }
      StockOfMember(catalog[1..], p);
    }
  }

  /** `catalog.find(p => p.barcode === code)`: the first product carrying exactly that barcode. */
  function FindByBarcode(catalog: seq<Product>, code: string): (r: Option<Product>)
    ensures r.Some? ==> r.value in catalog && r.value.barcode == Some(code)
    ensures r.Some? ==> exists k :: 0 <= k < |catalog| && catalog[k] == r.value &&
                          forall j :: 0 <= j < k ==> catalog[j].barcode != Some(code)
    ensures r.None? ==> forall i :: 0 <= i < |catalog| ==> catalog[i].barcode != Some(code)
    decreases |catalog|
  {
    if catalog == [] then None
    else if catalog[0].barcode == Some(code) then Some(catalog[0])
    else
      var rest := FindByBarcode(catalog[1..], code);
      assert rest.Some? ==> exists k :: 0 <= k < |catalog| && catalog[k] == rest.value &&
                              forall j :: 0 <= j < k ==> catalog[j].barcode != Some(code) by {
        if rest.Some? {
          var k :| 0 <= k < |catalog| - 1 && catalog[1..][k] == rest.value &&
                   forall j :: 0 <= j < k ==> catalog[1..][j].barcode != Some(code);
          assert catalog[k + 1] == rest.value;
          forall j | 0 <= j < k + 1 ensures catalog[j].barcode != Some(code) {
            if j > 0 { assert catalog[j] == catalog[1..][j - 1]; }
          }
        }
      }
      rest
  }

  /**
   * The product grid's filter: the category is the selected one (or 'All'), and the
   * name contains the query ignoring case or the barcode contains it verbatim.
   */
  predicate ProductMatches(p: Product, selectedCategory: string, searchQuery: string)
  {
    && (selectedCategory == "All" || p.category == selectedCategory)
    && (ContainsIgnoreCase(p.name, searchQuery) || (p.barcode.Some? && Contains(p.barcode.value, searchQuery)))
  }

  function FilteredProducts(catalog: seq<Product>, selectedCategory: string, searchQuery: string): (r: seq<Product>)
    ensures Sublist(r, catalog)
    ensures forall p :: p in r <==> p in catalog && ProductMatches(p, selectedCategory, searchQuery)
    ensures forall p :: multiset(r)[p] == if ProductMatches(p, selectedCategory, searchQuery) then multiset(catalog)[p] else 0
  {
    FilterSublist(catalog, p => ProductMatches(p, selectedCategory, searchQuery));
    Filter(catalog, p => ProductMatches(p, selectedCategory, searchQuery))
  }

  /** With category 'All' and an empty search the grid shows the whole catalog. */
  lemma FilteredProductsAll(catalog: seq<Product>)
    ensures FilteredProducts(catalog, "All", "") == catalog
  {
    forall i | 0 <= i < |catalog| ensures ProductMatches(catalog[i], "All", "") {
      assert Lower("") == "";
      ContainsEmpty(Lower(catalog[i].name));
    }
    FilterAll(catalog, p => ProductMatches(p, "All", ""));
  }

  // ---------------------------------------------------------------- cart lines

  predicate UniqueIds(cart: seq<CartItem>)
  {
    forall i, j :: 0 <= i < j < |cart| ==> cart[i].product.id != cart[j].product.id
  }

  predicate HasLine(cart: seq<CartItem>, id: string)
  {
    exists i :: 0 <= i < |cart| && cart[i].product.id == id
  }

  /** Index of the first line for `id` (`prevCart.find(item => item.id === id)`). */
  function FindLine(cart: seq<CartItem>, id: string): (r: Option<nat>)
    ensures r.Some? ==> r.value < |cart| && cart[r.value].product.id == id
    ensures r.Some? ==> forall j :: 0 <= j < r.value ==> cart[j].product.id != id
    ensures r.None? <==> !HasLine(cart, id)
    decreases |cart|
  {
    if cart == [] then None
    else if cart[0].product.id == id then Some(0)
    else match FindLine(cart[1..], id)
      case None => None
      case Some(k) => Some(k + 1)
  }

  /** The cart with every line for `id` set to `quantity` and every other line as it was. */
  function WithQuantity(cart: seq<CartItem>, id: string, quantity: int): (r: seq<CartItem>)
    ensures |r| == |cart|
  {
    seq(|cart|, i requires 0 <= i < |cart| =>
      if cart[i].product.id == id then cart[i].(quantity := quantity) else cart[i])
  }

  /** In a cart with unique ids, setting the quantity for `id` rewrites the one line with that id. */
  lemma WithQuantityOne(cart: seq<CartItem>, k: nat, quantity: int)
    requires UniqueIds(cart) && k < |cart|
    ensures WithQuantity(cart, cart[k].product.id, quantity) == cart[k := cart[k].(quantity := quantity)]
  {
  }

  /** Setting a quantity for an id with no line leaves the cart as it is. */
  lemma WithQuantityAbsent(cart: seq<CartItem>, id: string, quantity: int)
    requires !HasLine(cart, id)
    ensures WithQuantity(cart, id, quantity) == cart
  {
  }

  /** The cart with every line for `id` holding one unit more than it did, and every other line as it was. */
  function OneMore(cart: seq<CartItem>, id: string): (r: seq<CartItem>)
    ensures |r| == |cart|
  {
    seq(|cart|, i requires 0 <= i < |cart| =>
      if cart[i].product.id == id then cart[i].(quantity := cart[i].quantity + 1) else cart[i])
  }

  /**
   * `addToCart(product)`: a product already in the cart gets one more unit, but only
   * while the quantity of its first line is below the product's stock; a new product
   * is appended as a one-unit line whatever its stock.
   */
  function AddItem(cart: seq<CartItem>, p: Product): (r: seq<CartItem>)
    ensures HasLine(cart, p.id) ==> |r| == |cart|
    ensures HasLine(cart, p.id) ==> forall i :: 0 <= i < |cart| ==> r[i].product == cart[i].product
    ensures HasLine(cart, p.id) && r != cart ==>
      forall i :: 0 <= i < |cart| ==>
        r[i].quantity == if cart[i].product.id == p.id then cart[i].quantity + 1 else cart[i].quantity
    ensures !HasLine(cart, p.id) ==> r == cart + [CartItem(p, 1)]
    ensures UniqueIds(cart) ==> UniqueIds(r)
  {
    match FindLine(cart, p.id)
    case Some(k) =>
      if cart[k].quantity < p.stock then OneMore(cart, p.id) else cart
    case None => cart + [CartItem(p, 1)]
  }

  /**
   * Adding a product that already has a line touches only that line: it gains one
   * unit when its quantity is below the stock, and otherwise the cart is unchanged.
   */
  lemma AddExisting(cart: seq<CartItem>, k: nat, p: Product)
    requires UniqueIds(cart) && k < |cart| && cart[k].product.id == p.id
    ensures cart[k].quantity < p.stock ==>
      AddItem(cart, p) == cart[k := cart[k].(quantity := cart[k].quantity + 1)]
    ensures cart[k].quantity >= p.stock ==> AddItem(cart, p) == cart
  {
    assert FindLine(cart, p.id) == Some(k);
    var r := OneMore(cart, p.id);
    forall i | 0 <= i < |cart| ensures r[i] == cart[k := cart[k].(quantity := cart[k].quantity + 1)][i] {
    }
  }

  /** The filter callback of `removeFromCart(id)`: keep lines for other products. */
  function OtherThan(id: string): CartItem -> bool
  {
    (item: CartItem) => item.product.id != id
  }

  /** `removeFromCart(id)`: every line except the one for `id`, in their order. */
  function RemoveItem(cart: seq<CartItem>, id: string): (r: seq<CartItem>)
    ensures Sublist(r, cart)
    ensures forall x :: x in r <==> x in cart && x.product.id != id
    ensures forall x :: multiset(r)[x] == if x.product.id != id then multiset(cart)[x] else 0
  {
    FilterSublist(cart, OtherThan(id));
    Filter(cart, OtherThan(id))
  }

  /** Removing the line at `k` of a cart with unique ids leaves exactly the lines before and after it. */
  lemma RemoveExisting(cart: seq<CartItem>, k: nat)
    requires UniqueIds(cart) && k < |cart|
    ensures RemoveItem(cart, cart[k].product.id) == cart[..k] + cart[k + 1..]
  {
    var id := cart[k].product.id;
    var keep := OtherThan(id);
    var pre, post := cart[..k], cart[k + 1..];
    assert cart == pre + [cart[k]] + post;
    forall i | 0 <= i < |pre| ensures keep(pre[i]) {
      assert pre[i] == cart[i];
    }
    forall i | 0 <= i < |post| ensures keep(post[i]) {
      assert post[i] == cart[k + 1 + i];
    }
    FilterDropOne(pre, cart[k], post, keep);
  }

  /** Removing an id that has no line is a no-op. */
  lemma RemoveAbsent(cart: seq<CartItem>, id: string)
    requires !HasLine(cart, id)
    ensures RemoveItem(cart, id) == cart
  {
    FilterAll(cart, OtherThan(id));
  }

  /** Removal is idempotent. */
  lemma RemoveIdempotent(cart: seq<CartItem>, id: string)
    ensures RemoveItem(RemoveItem(cart, id), id) == RemoveItem(cart, id)
  {
    RemoveAbsent(RemoveItem(cart, id), id);
  }

  /**
   * `updateQuantity(id, n)`: n <= 0 removes the line; otherwise the line for `id`
   * becomes n units unless n exceeds the catalog stock for `id`, in which case it
   * stays as it was.
   */
  function SetQuantity(cart: seq<CartItem>, catalog: seq<Product>, id: string, n: int): (r: seq<CartItem>)
    ensures n <= 0 ==> r == RemoveItem(cart, id)
    ensures 0 < n && n > StockOf(catalog, id) ==> r == cart
    ensures !HasLine(cart, id) ==> r == cart
  {
    if n <= 0 then
      RemoveAbsentIfNoLine(cart, id);
      RemoveItem(cart, id)
    else
      var maxQuantity := StockOf(catalog, id);
      if n > maxQuantity then cart else WithQuantity(cart, id, n)
  }

  lemma RemoveAbsentIfNoLine(cart: seq<CartItem>, id: string)
    ensures !HasLine(cart, id) ==> RemoveItem(cart, id) == cart
  {
    if !HasLine(cart, id) { RemoveAbsent(cart, id); }
  }

  /** A quantity between 1 and the stock replaces that line's quantity and nothing else. */
  lemma SetQuantityWithinStock(cart: seq<CartItem>, catalog: seq<Product>, k: nat, n: int)
    requires UniqueIds(cart) && k < |cart|
    requires 0 < n <= StockOf(catalog, cart[k].product.id)
    ensures SetQuantity(cart, catalog, cart[k].product.id, n) == cart[k := cart[k].(quantity := n)]
  {
    WithQuantityOne(cart, k, n);
  }

  // ---------------------------------------------------------------- cart invariant

  function Max(a: int, b: int): int { if a >= b then a else b }

  /**
   * What every reachable cart satisfies: one line per product id, and every quantity
   * at least 1 and at most the catalog stock, except that a product first added while
   * out of stock may sit in the cart with a single unit.
   */
  predicate WellFormed(cart: seq<CartItem>, catalog: seq<Product>)
  {
    && UniqueIds(cart)
    && forall i :: 0 <= i < |cart| ==>
         1 <= cart[i].quantity <= Max(1, StockOf(catalog, cart[i].product.id))
  }

  lemma AddItemWellFormed(cart: seq<CartItem>, catalog: seq<Product>, p: Product)
    requires WellFormed(cart, catalog) && UniqueProductIds(catalog) && p in catalog
    ensures WellFormed(AddItem(cart, p), catalog)
  {
    StockOfMember(catalog, p);
    match FindLine(cart, p.id)
    case Some(k) => AddExisting(cart, k, p);
    case None =>
  }

  lemma RemoveItemWellFormed(cart: seq<CartItem>, catalog: seq<Product>, id: string)
    requires WellFormed(cart, catalog)
    ensures WellFormed(RemoveItem(cart, id), catalog)
  {
    var r := RemoveItem(cart, id);
    FilterSublist(cart, OtherThan(id));
    SublistUnique(r, cart);
    forall i | 0 <= i < |r|
      ensures 1 <= r[i].quantity <= Max(1, StockOf(catalog, r[i].product.id))
    {
      assert r[i] in cart;
    }
  }

  /** A sublist of a cart with unique ids has unique ids. */
  lemma {:induction false} SublistUnique(a: seq<CartItem>, b: seq<CartItem>)
    requires Sublist(a, b) && UniqueIds(b)
    ensures UniqueIds(a)
    decreases |b|
  {
    if a != [] && |a| <= |b| {
      if a[0] == b[0] {
        SublistUnique(a[1..], b[1..]);
        SublistMembers(a[1..], b[1..]);
        forall j | 0 < j < |a| ensures a[0].product.id != a[j].product.id {
          assert a[j] in b[1..];
        }
      } else {
        SublistUnique(a, b[1..]);
      }
    }
  }

  lemma SetQuantityWellFormed(cart: seq<CartItem>, catalog: seq<Product>, id: string, n: int)
    requires WellFormed(cart, catalog)
    ensures WellFormed(SetQuantity(cart, catalog, id, n), catalog)
  {
    if n <= 0 { RemoveItemWellFormed(cart, catalog, id); }
  }

  // ---------------------------------------------------------------- totals

  function LineTotal(item: CartItem): real
  {
    item.product.price * item.quantity as real
  }

  /** `cart.reduce((sum, item) => sum + item.price * item.quantity, 0)`. */
  function Subtotal(cart: seq<CartItem>): real
  {
    Sum(cart, LineTotal)
  }

  function Tax(cart: seq<CartItem>): real
  {
    Subtotal(cart) * TaxRate
  }

  function Total(cart: seq<CartItem>): (t: real)
    ensures t == Subtotal(cart) * 1.08
  {
    Subtotal(cart) + Tax(cart)
  }

  /** An empty cart has subtotal, tax and total all zero. */
  lemma EmptyTotals()
    ensures Subtotal([]) == 0.0 && Tax([]) == 0.0 && Total([]) == 0.0
  {
  }

  /** With non-negative prices the subtotal and total are never negative. */
  lemma TotalsNonNegative(cart: seq<CartItem>)
    requires forall i :: 0 <= i < |cart| ==> cart[i].product.price >= 0.0 && cart[i].quantity >= 0
    ensures 0.0 <= Subtotal(cart) <= Total(cart)
  {
    SumNonNegative(cart, LineTotal);
  }

  /** Adding a product with no line raises the subtotal by the product's price. */
  lemma AddNewSubtotal(cart: seq<CartItem>, p: Product)
    requires !HasLine(cart, p.id)
    ensures Subtotal(AddItem(cart, p)) == Subtotal(cart) + p.price
  {
    SumAppend(cart, [CartItem(p, 1)], LineTotal);
    SumCons(CartItem(p, 1), [], LineTotal);
  }

  /**
   * Adding a product that has a line raises the subtotal by that line's recorded unit
   * price when the add is accepted, and leaves it unchanged when refused.
   */
  lemma AddExistingSubtotal(cart: seq<CartItem>, k: nat, p: Product)
    requires UniqueIds(cart) && k < |cart| && cart[k].product.id == p.id
    ensures Subtotal(AddItem(cart, p)) ==
      Subtotal(cart) + (if cart[k].quantity < p.stock then cart[k].product.price else 0.0)
  {
    AddExisting(cart, k, p);
    if cart[k].quantity < p.stock {
      OneMoreSubtotal(cart, k);
    }
  }

  /** One more unit on line `k` raises the subtotal by that line's price. */
  lemma OneMoreSubtotal(cart: seq<CartItem>, k: nat)
    requires k < |cart|
    ensures Subtotal(cart[k := cart[k].(quantity := cart[k].quantity + 1)]) ==
      Subtotal(cart) + cart[k].product.price
  {
    var v := cart[k].(quantity := cart[k].quantity + 1);
    SumUpdate(cart, k, v, LineTotal);
    var price, q := cart[k].product.price, cart[k].quantity as real;
    assert price * (q + 1.0) == price * q + price;
    assert LineTotal(v) == LineTotal(cart[k]) + price;
  }

  /** Adding one $3.00 item to an empty cart: subtotal 3.00, tax 0.24, total 3.24. */
  lemma OneColaTotals()
    ensures var cart := AddItem([], SampleProducts[0]);
      Subtotal(cart) == 3.00 && Tax(cart) == 0.24 && Total(cart) == 3.24
  {
    var cart := AddItem([], SampleProducts[0]);
    assert cart == [CartItem(SampleProducts[0], 1)];
    SumCons(cart[0], [], LineTotal);
  }

  // ---------------------------------------------------------------- the terminal

  /** The terminal's component state and its event handlers. */
  class Terminal {
    const catalog: seq<Product>
    var cart: seq<CartItem>
    var selectedCategory: string
    var searchQuery: string
    var barcodeInput: string
    var customerPhone: string
    var paymentMethod: PaymentMethod

    ghost predicate Valid()
      reads this
    {
      UniqueProductIds(catalog) && WellFormed(cart, catalog)
    }

    constructor (catalog: seq<Product>)
      requires UniqueProductIds(catalog)
      ensures Valid() && this.catalog == catalog && cart == []
      ensures selectedCategory == "All" && searchQuery == "" && barcodeInput == ""
      ensures customerPhone == "" && paymentMethod == Cash
    {
      this.catalog := catalog;
      cart := [];
      selectedCategory := "All";
      searchQuery := "";
      barcodeInput := "";
      customerPhone := "";
      paymentMethod := Cash;
    }

    method AddToCart(p: Product)
      requires Valid() && p in catalog
      modifies this
      ensures Valid() && cart == AddItem(old(cart), p)
      ensures selectedCategory == old(selectedCategory) && searchQuery == old(searchQuery)
      ensures barcodeInput == old(barcodeInput) && customerPhone == old(customerPhone)
      ensures paymentMethod == old(paymentMethod)
    {
      AddItemWellFormed(cart, catalog, p);
      cart := AddItem(cart, p);
    }

    method RemoveFromCart(id: string)
      requires Valid()
      modifies this
      ensures Valid() && cart == RemoveItem(old(cart), id)
      ensures selectedCategory == old(selectedCategory) && searchQuery == old(searchQuery)
      ensures barcodeInput == old(barcodeInput) && customerPhone == old(customerPhone)
      ensures paymentMethod == old(paymentMethod)
    {
      RemoveItemWellFormed(cart, catalog, id);
      cart := RemoveItem(cart, id);
    }

    method UpdateQuantity(id: string, newQuantity: int)
      requires Valid()
      modifies this
      ensures Valid() && cart == SetQuantity(old(cart), catalog, id, newQuantity)
      ensures selectedCategory == old(selectedCategory) && searchQuery == old(searchQuery)
      ensures barcodeInput == old(barcodeInput) && customerPhone == old(customerPhone)
      ensures paymentMethod == old(paymentMethod)
    {
      SetQuantityWellFormed(cart, catalog, id, newQuantity);
      cart := SetQuantity(cart, catalog, id, newQuantity);
    }

    /**
     * `handleBarcodeScan`: the product whose barcode equals the input is added and the
     * input cleared; with no such product the cart and the input stay as they are.
     */
    method HandleBarcodeScan() returns (found: Option<Product>)
      requires Valid()
      modifies this
      ensures Valid()
      ensures found == FindByBarcode(catalog, old(barcodeInput))
      ensures found.Some? ==> cart == AddItem(old(cart), found.value) && barcodeInput == ""
      ensures found.None? ==> cart == old(cart) && barcodeInput == old(barcodeInput)
      ensures selectedCategory == old(selectedCategory) && searchQuery == old(searchQuery)
      ensures customerPhone == old(customerPhone) && paymentMethod == old(paymentMethod)
    {
      found := FindByBarcode(catalog, barcodeInput);
      if found.Some? {
        AddToCart(found.value);
        barcodeInput := "";
      }
    }

    /**
     * `processPayment`: an empty cart is refused and nothing changes; otherwise the
     * total is charged and the cart, phone and barcode input are cleared, whatever the
     * payment method.
     */
    method ProcessPayment() returns (charged: Option<real>)
      requires Valid()
      modifies this
      ensures Valid()
      ensures old(cart) == [] ==>
        (charged == None && cart == old(cart)
         && customerPhone == old(customerPhone) && barcodeInput == old(barcodeInput))
      ensures old(cart) != [] ==>
        (charged == Some(Total(old(cart))) && cart == []
         && customerPhone == "" && barcodeInput == "")
      ensures selectedCategory == old(selectedCategory) && searchQuery == old(searchQuery)
      ensures paymentMethod == old(paymentMethod)
    {
      if cart == [] {
        return None;
      }
      charged := Some(Total(cart));
      cart := [];
      customerPhone := "";
      barcodeInput := "";
    }

    method ClearCart()
      requires Valid()
      modifies this
      ensures Valid() && cart == []
      ensures selectedCategory == old(selectedCategory) && searchQuery == old(searchQuery)
      ensures barcodeInput == old(barcodeInput) && customerPhone == old(customerPhone)
      ensures paymentMethod == old(paymentMethod)
    {
      cart := [];
    }
  }
}
