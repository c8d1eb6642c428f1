/**
 * The team view (src/components/team-management.tsx): the member filter, the role list,
 * the summary aggregates, the performer of the week, the performance colour, the
 * sales leaderboard (an in-place sort of the member array) and the achievement badges.
 */
module Team {
  import opened Wrappers
  import opened Lists
  import opened Text

  datatype Role = Manager | Cashier | SalesAssociate | Supervisor
  datatype Status = Active | Inactive | OnBreak
  datatype Shift = Morning | Afternoon | Night

  /**
   * A team member. An absent `isTopPerformer` is falsy in the filter that counts top
   * performers, so it is a plain `bool` here; `hireDate` and `avatar` are display-only.
   */
  datatype Member = Member(id: string, name: string, email: string, phone: string,
                           role: Role, status: Status, totalSales: real, todaySales: real,
                           todayTransactions: int, performance: real, shift: Shift,
                           hourlyRate: real, achievements: seq<string>, isTopPerformer: bool)

  function RoleName(r: Role): string
  {
    match r
    case Manager => "Manager"
    case Cashier => "Cashier"
    case SalesAssociate => "Sales Associate"
    case Supervisor => "Supervisor"
  }

  function StatusName(s: Status): string
  {
    match s
    case Active => "active"
    case Inactive => "inactive"
    case OnBreak => "on-break"
  }

  /** Different roles have different names, so selecting a role name selects one role. */
  lemma RoleNameInjective(a: Role, b: Role)
    ensures RoleName(a) == RoleName(b) <==> a == b
  {
    if a != b {
      assert RoleName(a)[0] != RoleName(b)[0] || |RoleName(a)| != |RoleName(b)|;
    }
  }

  /**
   * A member passes when the name or e-mail contains the query ignoring case, and the
   * role and status are the selected ones or 'All' is selected.
   */
  predicate MemberMatches(m: Member, searchQuery: string, selectedRole: string, selectedStatus: string)
  {
    && (ContainsIgnoreCase(m.name, searchQuery) || ContainsIgnoreCase(m.email, searchQuery))
    && (selectedRole == "All" || RoleName(m.role) == selectedRole)
    && (selectedStatus == "All" || StatusName(m.status) == selectedStatus)
  }

  function FilteredMembers(ms: seq<Member>, searchQuery: string, selectedRole: string,
                           selectedStatus: string): (r: seq<Member>)
    ensures Sublist(r, ms)
    ensures forall m :: m in r <==> m in ms && MemberMatches(m, searchQuery, selectedRole, selectedStatus)
    ensures forall m :: multiset(r)[m] == if MemberMatches(m, searchQuery, selectedRole, selectedStatus) then multiset(ms)[m] else 0
  {
    FilterSublist(ms, m => MemberMatches(m, searchQuery, selectedRole, selectedStatus));
    Filter(ms, m => MemberMatches(m, searchQuery, selectedRole, selectedStatus))
  }

  /** An empty search with 'All' roles and statuses lists every member. */
  lemma FilteredMembersAll(ms: seq<Member>)
    ensures FilteredMembers(ms, "", "All", "All") == ms
  {
    forall i | 0 <= i < |ms| ensures MemberMatches(ms[i], "", "All", "All") {
      assert Lower("") == "";
      ContainsEmpty(Lower(ms[i].name));
    }
    FilterAll(ms, m => MemberMatches(m, "", "All", "All"));
  }

  /** `teamMembers.map(m => m.role)`. */
  function RoleColumn(ms: seq<Member>): (r: seq<string>)
    ensures |r| == |ms| && forall i :: 0 <= i < |ms| ==> r[i] == RoleName(ms[i].role)
  {
    seq(|ms|, i requires 0 <= i < |ms| => RoleName(ms[i].role))
  }

  /** 'All', then each role that some member holds, once, in order of first occurrence. */
  function Roles(ms: seq<Member>): (r: seq<string>)
    ensures |r| >= 1 && r[0] == "All"
    ensures r[1..] == Distinct(RoleColumn(ms))
    ensures forall x :: x in r[1..] <==> exists i :: 0 <= i < |ms| && RoleName(ms[i].role) == x
    ensures NoDuplicates(r[1..])
  {
    var roles := RoleColumn(ms);
    var d := Distinct(roles);
    forall x ensures x in roles <==> exists i :: 0 <= i < |ms| && RoleName(ms[i].role) == x {
      if x in roles {
        var i :| 0 <= i < |roles| && roles[i] == x;
        assert RoleName(ms[i].role) == x;
      }
      if i :| 0 <= i < |ms| && RoleName(ms[i].role) == x {
        assert roles[i] == x;
      }
    }
    assert (["All"] + d)[1..] == d;
    ["All"] + d
  }

  predicate IsActive(m: Member) { m.status == Active }
  predicate IsTopPerformer(m: Member) { m.isTopPerformer }
  function TodaySales(m: Member): real { m.todaySales }
  function Performance(m: Member): real { m.performance }

  function ActiveMembers(ms: seq<Member>): nat { Count(ms, IsActive) }
  function TopPerformers(ms: seq<Member>): nat { Count(ms, IsTopPerformer) }
  function TodayTotalSales(ms: seq<Member>): real { Sum(ms, TodaySales) }

  /** There are never more active members, or top performers, than members. */
  lemma AggregateBounds(ms: seq<Member>)
    ensures ActiveMembers(ms) <= |ms| && TopPerformers(ms) <= |ms|
  {
  }

  /** With nobody refunding, the day's team total is non-negative. */
  lemma TodayTotalSalesNonNegative(ms: seq<Member>)
    requires forall i :: 0 <= i < |ms| ==> ms[i].todaySales >= 0.0
    ensures TodayTotalSales(ms) >= 0.0
  {
    SumNonNegative(ms, TodaySales);
  }

  /**
   * The mean performance. On an empty team the source divides 0 by 0 and shows NaN;
   * that case is `None` here.
   */
  function AvgPerformance(ms: seq<Member>): (r: Option<real>)
    ensures r.Some? <==> |ms| > 0
    ensures r.Some? ==> r.value * |ms| as real == Sum(ms, Performance)
  {
    if |ms| == 0 then None else Some(Sum(ms, Performance) / |ms| as real)
  }

  /** A sum of terms between `lo` and `hi` lies between `n * lo` and `n * hi`. */
  lemma {:induction false} SumBetween(ms: seq<Member>, lo: real, hi: real)
    requires forall i :: 0 <= i < |ms| ==> lo <= ms[i].performance <= hi
    ensures |ms| as real * lo <= Sum(ms, Performance) <= |ms| as real * hi
    decreases |ms|
  {
    if ms != [] { SumBetween(ms[..|ms| - 1], lo, hi); }
  }

  /** When every performance is a percentage, so is the average. */
  lemma AvgPerformanceIsPercentage(ms: seq<Member>)
    requires |ms| > 0
    requires forall i :: 0 <= i < |ms| ==> 0.0 <= ms[i].performance <= 100.0
    ensures AvgPerformance(ms).Some? && 0.0 <= AvgPerformance(ms).value <= 100.0
  {
    SumBetween(ms, 0.0, 100.0);
  }

  /**
   * The index `reduce((top, m) => m.performance > top.performance ? m : top)` lands on:
   * a member of maximal performance, and the first one, because a later member replaces
   * the running top only when strictly better. `reduce` without a seed throws on an
   * empty array, hence the precondition.
   */
  function TopPerformerIndex(ms: seq<Member>): (k: nat)
    requires |ms| > 0
    ensures k < |ms|
    ensures forall i :: 0 <= i < |ms| ==> ms[i].performance <= ms[k].performance
    ensures forall i :: 0 <= i < k ==> ms[i].performance < ms[k].performance
    decreases |ms|
  {
    if |ms| == 1 then 0
    else
      var t := TopPerformerIndex(ms[..|ms| - 1]);
      if ms[|ms| - 1].performance > ms[t].performance then |ms| - 1 else t
  }

  function TopPerformerOfWeek(ms: seq<Member>): (m: Member)
    requires |ms| > 0
    ensures m in ms
    ensures forall x :: x in ms ==> x.performance <= m.performance
    ensures exists k :: 0 <= k < |ms| && ms[k] == m && forall i :: 0 <= i < k ==> ms[i].performance < m.performance
  {
    var k := TopPerformerIndex(ms);
    assert ms[k] == ms[k];
    ms[k]
  }

  datatype PerformanceTone = Green | Yellow | Red

  /** `getPerformanceColor`: 90 and above is green, 80 and above yellow, the rest red. */
  function PerformanceColor(performance: real): (c: PerformanceTone)
    ensures c == Green <==> performance >= 90.0
    ensures c == Yellow <==> 80.0 <= performance < 90.0
    ensures c == Red <==> performance < 80.0
  {
    if performance >= 90.0 then Green
    else if performance >= 80.0 then Yellow
    else Red
  }

  function ToneRank(c: PerformanceTone): nat
  {
    match c
    case Red => 0
    case Yellow => 1
    case Green => 2
  }

  /** A higher performance never gets a worse colour. */
  lemma PerformanceColorMonotone(a: real, b: real)
    requires a <= b
    ensures ToneRank(PerformanceColor(a)) <= ToneRank(PerformanceColor(b))
  {
  }

  /** Non-increasing in today's sales, as the leaderboard lists members. */
  predicate SortedBySales(s: seq<Member>)
  {
    forall i, j :: 0 <= i < j < |s| ==> s[i].todaySales >= s[j].todaySales
  }

  /** Exchanges `a[j - 1]` and `a[j]`. */
  method SwapDown(a: array<Member>, j: nat)
    requires 0 < j < a.Length
    modifies a
    ensures a[..] == old(a[..])[j - 1 := old(a[j])][j := old(a[j - 1])]
    ensures multiset(a[..]) == multiset(old(a[..]))
  {
    a[j - 1], a[j] := a[j], a[j - 1];
  }

  /**
   * One insertion step: with `a[..i]` sorted, moves `a[i]` left past every member with
   * strictly lower sales, leaving the rest of the array alone.
   */
  method InsertBySales(a: array<Member>, i: nat)
    requires i < a.Length
    requires SortedBySales(a[..i])
    modifies a
    ensures SortedBySales(a[..i + 1])
    ensures a[i + 1..] == old(a[i + 1..])
    ensures multiset(a[..]) == multiset(old(a[..]))
  {
    var j := i;
    while j > 0 && a[j - 1].todaySales < a[j].todaySales
      invariant 0 <= j <= i
      invariant a[i + 1..] == old(a[i + 1..])
      invariant multiset(a[..]) == multiset(old(a[..]))
      invariant forall k, m :: 0 <= k < m <= i && k != j && m != j ==> a[k].todaySales >= a[m].todaySales
      invariant forall m :: j < m <= i ==> a[m].todaySales < a[j].todaySales
    {
      SwapDown(a, j);
      j := j - 1;
    }
  }

  /**
   * `teamMembers.sort((a, b) => b.todaySales - a.todaySales)`, in place on the member
   * array: an insertion sort that moves a member left only past members with strictly
   * lower sales.
   */
  method SortBySales(a: array<Member>)
    modifies a
    ensures SortedBySales(a[..])
    ensures multiset(a[..]) == multiset(old(a[..]))
  {
    var i := 0;
    while i < a.Length
      invariant 0 <= i <= a.Length
      invariant SortedBySales(a[..i])
      invariant multiset(a[..]) == multiset(old(a[..]))
    {
      InsertBySales(a, i);
      i := i + 1;
    }
    assert a[..] == a[..a.Length];
  }

  function Min(a: int, b: int): int { if a <= b then a else b }

  /**
   * The "Sales Performance Leaderboard": sorts the members in place, then shows the
   * first five.
   */
  method Leaderboard(a: array<Member>) returns (top: seq<Member>)
    modifies a
    ensures multiset(a[..]) == multiset(old(a[..]))
    ensures SortedBySales(a[..])
    ensures top == a[..Min(5, a.Length)]
    ensures SortedBySales(top)
    ensures forall m :: m in top ==> m in old(a[..])
    ensures forall i, j :: 0 <= i < |top| <= j < a.Length ==> top[i].todaySales >= a[j].todaySales
  {
    SortBySales(a);
    top := a[..Min(5, a.Length)];
    forall m | m in top ensures m in old(a[..]) {
      assert m in multiset(a[..]);
    }
  }

  /** The achievement row: up to two badges, and a "+n more" badge for the rest. */
  datatype AchievementRow = AchievementRow(shown: seq<string>, more: Option<nat>)

  /** No row at all when the member has no achievements. */
  function Achievements(achievements: seq<string>): (r: Option<AchievementRow>)
    ensures r.None? <==> |achievements| == 0
    ensures r.Some? ==> |r.value.shown| <= 2 && r.value.shown <= achievements
    ensures r.Some? ==> r.value.shown == achievements[..Min(2, |achievements|)]
    ensures r.Some? && r.value.more.Some? ==> r.value.more.value == |achievements| - 2
    ensures r.Some? ==> (r.value.more.Some? <==> |achievements| > 2)
    ensures r.Some? && r.value.more.Some? ==> |r.value.shown| + r.value.more.value == |achievements|
    ensures r.Some? && r.value.more.None? ==> r.value.shown == achievements
  {
    if |achievements| == 0 then None
    else if |achievements| > 2 then Some(AchievementRow(achievements[..2], Some(|achievements| - 2)))
    else Some(AchievementRow(achievements, None))
  }
}
