/**
 * The quick-sale dialog (src/components/quick-sale.tsx): a second cart with its own
 * rules. Lines are never limited by stock, ad-hoc "custom amount" lines are appended
 * without merging, and a cash sale compares the parsed tender against the total.
 */
module QuickSale {
  import opened Wrappers
  import opened Lists
  import opened Text
  import opened JsNumber

  /** An entry of the quick-pick grid. */
  datatype QuickProduct = QuickProduct(id: string, name: string, price: real, category: string)

  datatype QuickItem = QuickItem(id: string, name: string, price: real, category: string, quantity: int)

  datatype PaymentMethod = Cash | Card | Mobile

  datatype SaleError = EmptyCart | InsufficientTender

  datatype SaleOutcome = Completed(total: real) | Refused(reason: SaleError)

  const QuickItems: seq<QuickProduct> := [
    QuickProduct("1", "Coca-Cola 330ml", 3.00, "Beverages"),
    QuickProduct("2", "Bottled Water", 1.50, "Beverages"),
    QuickProduct("3", "Energy Drink", 4.50, "Beverages"),
    QuickProduct("4", "Pringles Original", 2.99, "Snacks"),
    QuickProduct("5", "Protein Bar", 3.49, "Snacks"),
    QuickProduct("6", "Chewing Gum", 1.99, "Snacks"),
    QuickProduct("7", "Phone Charger", 29.99, "Electronics"),
    QuickProduct("8", "Earphones", 19.99, "Electronics")
  ]

  /** `filteredItems`: the grid entries whose name contains the search, ignoring case, in order. */
  function FilteredItems(items: seq<QuickProduct>, searchQuery: string): (r: seq<QuickProduct>)
    ensures Sublist(r, items)
    ensures forall q :: q in r <==> q in items && ContainsIgnoreCase(q.name, searchQuery)
    ensures forall q :: multiset(r)[q] == if ContainsIgnoreCase(q.name, searchQuery) then multiset(items)[q] else 0
  {
    FilterSublist(items, (q: QuickProduct) => ContainsIgnoreCase(q.name, searchQuery));
    Filter(items, (q: QuickProduct) => ContainsIgnoreCase(q.name, searchQuery))
  }

  predicate HasLine(cart: seq<QuickItem>, id: string)
  {
    exists i :: 0 <= i < |cart| && cart[i].id == id
  }

  predicate UniqueIds(cart: seq<QuickItem>)
  {
    forall i, j :: 0 <= i < j < |cart| ==> cart[i].id != cart[j].id
  }

  predicate PositiveQuantities(cart: seq<QuickItem>)
  {
    forall i :: 0 <= i < |cart| ==> cart[i].quantity >= 1
  }

  /** `{ ...item, quantity: 1 }`: a fresh one-unit line for a grid entry. */
  function NewLine(q: QuickProduct): QuickItem
  {
    QuickItem(q.id, q.name, q.price, q.category, 1)
  }

  /**
   * `addToCart(item)`: every line for the entry's id gains one unit, with no upper
   * bound; an entry with no line is appended as a one-unit line.
   */
  function AddItem(cart: seq<QuickItem>, q: QuickProduct): (r: seq<QuickItem>)
    ensures HasLine(cart, q.id) ==> |r| == |cart|
    ensures HasLine(cart, q.id) ==> forall i :: 0 <= i < |cart| && cart[i].id != q.id ==> r[i] == cart[i]
    ensures !HasLine(cart, q.id) ==> r == cart + [NewLine(q)]
    ensures PositiveQuantities(cart) ==> PositiveQuantities(r)
    ensures UniqueIds(cart) ==> UniqueIds(r)
  {
    if HasLine(cart, q.id) then
      seq(|cart|, i requires 0 <= i < |cart| =>
        if cart[i].id == q.id then cart[i].(quantity := cart[i].quantity + 1) else cart[i])
    else cart + [NewLine(q)]
  }

  /** In a cart with unique ids, adding an entry that has a line adds one unit to that line alone. */
  lemma AddExisting(cart: seq<QuickItem>, k: nat, q: QuickProduct)
    requires UniqueIds(cart) && k < |cart| && cart[k].id == q.id
    ensures AddItem(cart, q) == cart[k := cart[k].(quantity := cart[k].quantity + 1)]
  {
  }

  /** The filter callback of `updateQuantity(id, n)` for n <= 0. */
  function OtherThan(id: string): QuickItem -> bool
  {
    (item: QuickItem) => item.id != id
  }

  /**
   * `updateQuantity(id, n)`: n <= 0 drops the lines for `id`, keeping the others in
   * order; otherwise the lines for `id` get exactly n units, with no stock check.
   */
  function SetQuantity(cart: seq<QuickItem>, id: string, n: int): (r: seq<QuickItem>)
    ensures n <= 0 ==> Sublist(r, cart) && forall x :: x in r <==> x in cart && x.id != id
    ensures n <= 0 ==> forall x :: multiset(r)[x] == if x.id != id then multiset(cart)[x] else 0
    ensures n > 0 ==> |r| == |cart| && forall i :: 0 <= i < |cart| ==>
      r[i] == if cart[i].id == id then cart[i].(quantity := n) else cart[i]
    ensures PositiveQuantities(cart) ==> PositiveQuantities(r)
  {
    if n <= 0 then
      FilterSublist(cart, OtherThan(id));
      Filter(cart, OtherThan(id))
    else
      seq(|cart|, i requires 0 <= i < |cart| =>
        if cart[i].id == id then cart[i].(quantity := n) else cart[i])
  }

  /** In a cart with unique ids, a positive quantity rewrites the one line for that id. */
  lemma SetQuantityOne(cart: seq<QuickItem>, k: nat, n: int)
    requires UniqueIds(cart) && k < |cart| && n > 0
    ensures SetQuantity(cart, cart[k].id, n) == cart[k := cart[k].(quantity := n)]
  {
  }

  // ---------------------------------------------------------------- totals and tender

  function LineTotal(item: QuickItem): real
  {
    item.price * item.quantity as real
  }

  function Subtotal(cart: seq<QuickItem>): real
  {
    Sum(cart, LineTotal)
  }

  function Tax(cart: seq<QuickItem>): real
  {
    Subtotal(cart) * 0.08
  }

  function Total(cart: seq<QuickItem>): (t: real)
    ensures t == Subtotal(cart) * 1.08
  {
    Subtotal(cart) + Tax(cart)
  }

  /** `parseFloat(amountTendered) - total`; `None` when the tender is `NaN`. */
  function Change(amountTendered: string, cart: seq<QuickItem>): Option<real>
  {
    match ParseFloat(amountTendered)
    case Some(v) => Some(v - Total(cart))
    case None => None
  }

  /** The change line is displayed when the tender is non-empty and parses to at least the total. */
  predicate ShowsChange(amountTendered: string, cart: seq<QuickItem>)
  {
    amountTendered != "" && ParseFloat(amountTendered).Some? && ParseFloat(amountTendered).value >= Total(cart)
  }

  /** The checks `handleCompleteSale` makes before completing, in its order. */
  function CheckSale(cart: seq<QuickItem>, payment: PaymentMethod, amountTendered: string): (r: Option<SaleError>)
    ensures r == Some(EmptyCart) <==> cart == []
    ensures r == Some(InsufficientTender) ==> payment == Cash
  {
    if cart == [] then Some(EmptyCart)
    else if payment == Cash && ParseFloat(amountTendered).Some? && ParseFloat(amountTendered).value < Total(cart)
    then Some(InsufficientTender)
    else None
  }

  /** Displayed change is never negative. */
  lemma ShownChangeNonNegative(amountTendered: string, cart: seq<QuickItem>)
    requires ShowsChange(amountTendered, cart)
    ensures Change(amountTendered, cart).Some? && Change(amountTendered, cart).value >= 0.0
  {
  }

  /** Whenever change is displayed for a non-empty cart, a cash sale goes through. */
  lemma ShownChangeCompletes(amountTendered: string, cart: seq<QuickItem>)
    requires cart != [] && ShowsChange(amountTendered, cart)
    ensures CheckSale(cart, Cash, amountTendered) == None
  {
  }

  /** A cash tender is refused exactly when it parses to a number strictly below the total. */
  lemma CashRefusal(cart: seq<QuickItem>, amountTendered: string)
    requires cart != []
    ensures CheckSale(cart, Cash, amountTendered) == Some(InsufficientTender) <==>
      match ParseFloat(amountTendered)
      case Some(v) => v < Total(cart)
      case None => false
  {
  }

  /** A tender equal to the total is accepted. */
  lemma ExactTenderAccepted(cart: seq<QuickItem>, amountTendered: string)
    requires cart != [] && ParseFloat(amountTendered) == Some(Total(cart))
    ensures CheckSale(cart, Cash, amountTendered) == None
  {
  }

  /** An unparseable cash tender, the empty one included, is not refused. */
  lemma NaNTenderAccepted(cart: seq<QuickItem>)
    requires cart != []
    ensures CheckSale(cart, Cash, "") == None
    ensures CheckSale(cart, Cash, "abc") == None
  {
    ParseEmpty();
    ParseNonNumeric("abc");
  }

  /** Card and mobile payments skip the tender check. */
  lemma NonCashAccepted(cart: seq<QuickItem>, payment: PaymentMethod, amountTendered: string)
    requires cart != [] && payment != Cash
    ensures CheckSale(cart, payment, amountTendered) == None
  {
  }

  // ---------------------------------------------------------------- custom amounts

  /** `custom-${Date.now()}`. */
  function CustomId(now: nat): string
  {
    "custom-" + NatToString(now)
  }

  function CustomLine(now: nat, price: real): QuickItem
  {
    QuickItem(CustomId(now), "Custom Item", price, "Custom", 1)
  }

  /** `amount && !isNaN(parseFloat(amount))`, with `None` for a cancelled prompt. */
  predicate AcceptsCustomAmount(input: Option<string>)
  {
    input.Some? && input.value != "" && ParseFloat(input.value).Some?
  }

  /** The non-empty test is implied by the numeric one: `parseFloat("")` is `NaN`. */
  lemma CustomAmountNeedsOnlyANumber(input: Option<string>)
    ensures AcceptsCustomAmount(input) <==> input.Some? && ParseFloat(input.value).Some?
  {
    ParseEmpty();
    ParseNonNumeric("abc");
  }

  /** Custom lines made at different instants have different ids. */
  lemma CustomIdsDiffer(t1: nat, t2: nat)
    requires t1 != t2
    ensures CustomId(t1) != CustomId(t2)
  {
    if CustomId(t1) == CustomId(t2) {
      assert NatToString(t1) == CustomId(t1)[7..] == CustomId(t2)[7..] == NatToString(t2);
      NatToStringInjective(t1, t2);
    }
  }

  /** No grid entry shares an id with a custom line, so adding from the grid never merges into one. */
  lemma CustomIdNotInGrid(now: nat)
    ensures forall q :: q in QuickItems ==> q.id != CustomId(now)
  {
  }

  // ---------------------------------------------------------------- the dialog

  /** The dialog's component state; `isOpen` is the parent's flag that `onClose` clears. */
  class Sale {
    var cart: seq<QuickItem>
    var searchQuery: string
    var paymentMethod: PaymentMethod
    var amountTendered: string
    var isOpen: bool

    ghost predicate Valid()
      reads this
    {
      PositiveQuantities(cart)
    }

    constructor (isOpen: bool)
      ensures Valid() && cart == [] && searchQuery == "" && paymentMethod == Cash
      ensures amountTendered == "" && this.isOpen == isOpen
    {
      cart := [];
      searchQuery := "";
      paymentMethod := Cash;
      amountTendered := "";
      this.isOpen := isOpen;
    }

    method AddToCart(q: QuickProduct)
      requires Valid()
      modifies this
      ensures Valid() && cart == AddItem(old(cart), q)
      ensures searchQuery == old(searchQuery) && paymentMethod == old(paymentMethod)
      ensures amountTendered == old(amountTendered) && isOpen == old(isOpen)
    {
      cart := AddItem(cart, q);
    }

    method UpdateQuantity(id: string, newQuantity: int)
      requires Valid()
      modifies this
      ensures Valid() && cart == SetQuantity(old(cart), id, newQuantity)
      ensures searchQuery == old(searchQuery) && paymentMethod == old(paymentMethod)
      ensures amountTendered == old(amountTendered) && isOpen == old(isOpen)
    {
      cart := SetQuantity(cart, id, newQuantity);
    }

    method ClearCart()
      requires Valid()
      modifies this
      ensures Valid() && cart == []
      ensures searchQuery == old(searchQuery) && paymentMethod == old(paymentMethod)
      ensures amountTendered == old(amountTendered) && isOpen == old(isOpen)
    {
      cart := [];
    }

    /**
     * `handleCompleteSale`: a refused sale changes nothing; a completed one empties
     * the cart, clears the tender and closes the dialog.
     */
    method HandleCompleteSale() returns (outcome: SaleOutcome)
      requires Valid()
      modifies this
      ensures Valid()
      ensures CheckSale(old(cart), old(paymentMethod), old(amountTendered)) == Some(EmptyCart) ==>
        outcome == Refused(EmptyCart)
      ensures CheckSale(old(cart), old(paymentMethod), old(amountTendered)) == Some(InsufficientTender) ==>
        outcome == Refused(InsufficientTender)
      ensures CheckSale(old(cart), old(paymentMethod), old(amountTendered)) == None ==>
        outcome == Completed(Total(old(cart)))
      ensures outcome.Refused? ==>
        cart == old(cart) && amountTendered == old(amountTendered) && isOpen == old(isOpen)
      ensures outcome.Completed? ==> cart == [] && amountTendered == "" && !isOpen
      ensures searchQuery == old(searchQuery) && paymentMethod == old(paymentMethod)
    {
      var check := CheckSale(cart, paymentMethod, amountTendered);
      if check.Some? {
        return Refused(check.value);
      }
      outcome := Completed(Total(cart));
      cart := [];
      amountTendered := "";
      isOpen := false;
    }

    /**
     * `addCustomAmount`, with the prompt's answer (`None` when cancelled) and the clock
     * passed in: a numeric answer appends a one-unit "Custom Item" line at that price
     * under a `custom-<now>` id; anything else changes nothing.
     */
    method AddCustomAmount(input: Option<string>, now: nat) returns (added: bool)
      requires Valid()
      modifies this
      ensures Valid()
      ensures added <==> AcceptsCustomAmount(input)
      ensures added ==> cart == old(cart) + [CustomLine(now, ParseFloat(input.value).value)]
      ensures !added ==> cart == old(cart)
      ensures searchQuery == old(searchQuery) && paymentMethod == old(paymentMethod)
      ensures amountTendered == old(amountTendered) && isOpen == old(isOpen)
    {
      added := AcceptsCustomAmount(input);
      if added {
        cart := cart + [CustomLine(now, ParseFloat(input.value).value)];
      }
    }
  }
}
