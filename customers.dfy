/**
 * The customer view (src/components/customer-management.tsx): the customer filter, the
 * active-customer count, revenue, the average order value and the loyalty-tier counts.
 * Dates are milliseconds since the epoch; the current time is a parameter.
 */
module Customers {
  import opened Wrappers
  import opened Lists
  import opened Text

  datatype Tier = Bronze | Silver | Gold | Platinum

  /** A customer; the optional `address`, `avatar` and `favoriteCategory` are display-only. */
  datatype Customer = Customer(id: string, name: string, email: string, phone: string,
                               totalSpent: real, totalOrders: int, lastVisit: int,
                               loyaltyPoints: int, tier: Tier, joinDate: int)

  function TierName(t: Tier): string
  {
    match t
    case Bronze => "Bronze"
    case Silver => "Silver"
    case Gold => "Gold"
    case Platinum => "Platinum"
  }

  /**
   * A customer passes when the name or e-mail contains the query ignoring case, or the
   * phone number contains the query exactly as typed, and the tier is the selected one
   * or 'All' is selected.
   */
  predicate CustomerMatches(c: Customer, searchQuery: string, selectedTier: string)
  {
    && (ContainsIgnoreCase(c.name, searchQuery) || ContainsIgnoreCase(c.email, searchQuery)
        || Contains(c.phone, searchQuery))
    && (selectedTier == "All" || TierName(c.tier) == selectedTier)
  }

  function FilteredCustomers(cs: seq<Customer>, searchQuery: string, selectedTier: string): (r: seq<Customer>)
    ensures Sublist(r, cs)
    ensures forall c :: c in r <==> c in cs && CustomerMatches(c, searchQuery, selectedTier)
    ensures forall c :: multiset(r)[c] == if CustomerMatches(c, searchQuery, selectedTier) then multiset(cs)[c] else 0
  {
    FilterSublist(cs, c => CustomerMatches(c, searchQuery, selectedTier));
    Filter(cs, c => CustomerMatches(c, searchQuery, selectedTier))
  }

  /**
   * When neither the name nor the e-mail matches, a customer is selected exactly when the
   * phone contains the query as typed and the tier passes.
   */
  lemma PhoneDecides(c: Customer, searchQuery: string, selectedTier: string)
    requires !ContainsIgnoreCase(c.name, searchQuery) && !ContainsIgnoreCase(c.email, searchQuery)
    ensures CustomerMatches(c, searchQuery, selectedTier) <==>
      Contains(c.phone, searchQuery) && (selectedTier == "All" || TierName(c.tier) == selectedTier)
  {
  }

  /**
   * The phone match is case-sensitive: a customer whose phone holds an "x" is listed
   * for the query "x" and not for "X".
   */
  lemma PhoneMatchIsCaseSensitive()
    ensures var c := Customer("c1", "Bo", "b@o", "x12", 0.0, 0, 0, 0, Bronze, 0);
      FilteredCustomers([c], "x", "All") == [c] && FilteredCustomers([c], "X", "All") == []
  {
    var c := Customer("c1", "Bo", "b@o", "x12", 0.0, 0, 0, 0, Bronze, 0);
    assert "x" <= "x12";
    assert CustomerMatches(c, "x", "All");
    assert Lower("X") == "x" by { assert Lower("X")[0] == 'x'; }
    assert Lower("Bo") == "bo" by { assert Lower("Bo")[0] == 'b' && Lower("Bo")[1] == 'o'; }
    assert Lower("b@o") == "b@o" by {
      assert Lower("b@o")[0] == 'b' && Lower("b@o")[1] == '@' && Lower("b@o")[2] == 'o';
    }
    NotContainsChar("bo", 'x');
    NotContainsChar("b@o", 'x');
    NotContainsChar("x12", 'X');
    assert !CustomerMatches(c, "X", "All");
    assert [c][1..] == [];
  }

  /** An empty search with 'All' tiers lists every customer. */
  lemma FilteredCustomersAll(cs: seq<Customer>)
    ensures FilteredCustomers(cs, "", "All") == cs
  {
    forall i | 0 <= i < |cs| ensures CustomerMatches(cs[i], "", "All") {
      assert Lower("") == "";
      ContainsEmpty(Lower(cs[i].name));
    }
    FilterAll(cs, c => CustomerMatches(c, "", "All"));
  }

  /** Thirty days in milliseconds. */
  const ActiveWindowMs: int := 30 * 24 * 60 * 60 * 1000

  /** Visited within the last thirty days, strictly. */
  predicate IsActiveAt(now: int, c: Customer)
  {
    now - c.lastVisit < ActiveWindowMs
  }

  function ActiveCustomers(cs: seq<Customer>, now: int): (n: nat)
    ensures n <= |cs|
  {
    Count(cs, (c: Customer) => IsActiveAt(now, c))
  }

  /** A customer whose last visit is exactly thirty days old no longer counts. */
  lemma ActiveBoundary(c: Customer)
    ensures !IsActiveAt(c.lastVisit + 2592000000, c)
    ensures IsActiveAt(c.lastVisit + 2591999999, c)
  {
  }

  /** As time passes without visits, the active count can only fall. */
  lemma ActiveCustomersFall(cs: seq<Customer>, now: int, later: int)
    requires now <= later
    ensures ActiveCustomers(cs, later) <= ActiveCustomers(cs, now)
  {
    CountImplies(cs, (c: Customer) => IsActiveAt(later, c), (c: Customer) => IsActiveAt(now, c));
  }

  function Spent(c: Customer): real { c.totalSpent }
  function Orders(c: Customer): real { c.totalOrders as real }

  function TotalRevenue(cs: seq<Customer>): real { Sum(cs, Spent) }
  function TotalOrders(cs: seq<Customer>): real { Sum(cs, Orders) }

  /** Revenue from non-negative spends is non-negative. */
  lemma TotalRevenueNonNegative(cs: seq<Customer>)
    requires forall i :: 0 <= i < |cs| ==> cs[i].totalSpent >= 0.0
    ensures TotalRevenue(cs) >= 0.0
  {
    SumNonNegative(cs, Spent);
  }

  /**
   * Revenue divided by the total number of orders. When the orders sum to zero the
   * source's division yields Infinity or NaN; that case is `None` here.
   */
  function AvgOrderValue(cs: seq<Customer>): (r: Option<real>)
    ensures r.Some? <==> TotalOrders(cs) != 0.0
    ensures r.Some? ==> r.value * TotalOrders(cs) == TotalRevenue(cs)
  {
    if TotalOrders(cs) == 0.0 then None else Some(TotalRevenue(cs) / TotalOrders(cs))
  }

  datatype LoyaltyStats = LoyaltyStats(bronze: nat, silver: nat, gold: nat, platinum: nat)

  predicate IsBronze(c: Customer) { c.tier == Bronze }
  predicate IsSilver(c: Customer) { c.tier == Silver }
  predicate IsGold(c: Customer) { c.tier == Gold }
  predicate IsPlatinum(c: Customer) { c.tier == Platinum }

  /** The number of customers in each tier. */
  function Loyalty(cs: seq<Customer>): LoyaltyStats
  {
    LoyaltyStats(Count(cs, IsBronze), Count(cs, IsSilver), Count(cs, IsGold), Count(cs, IsPlatinum))
  }

  /** Every customer is in exactly one tier, so the four counts add up to the customer count. */
  lemma {:induction false} LoyaltyPartition(cs: seq<Customer>)
    ensures var s := Loyalty(cs); s.bronze + s.silver + s.gold + s.platinum == |cs|
    decreases |cs|
  {
    if cs != [] {
      CountFirst(cs, IsBronze);
      CountFirst(cs, IsSilver);
      CountFirst(cs, IsGold);
      CountFirst(cs, IsPlatinum);
      LoyaltyPartition(cs[1..]);
    }
  }
}
