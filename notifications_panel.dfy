/**
 * The notification popover (src/components/notifications-panel.tsx): the
 * read/priority/category filter, relative-time labels, icon and colour choices, the
 * unread badge and its header wording.
 */
module NotificationsPanel {
  import opened Lists
  import opened JsNumber

  datatype NotificationType = Warning | Success | Info | Error
  datatype Category = System | Sales | Inventory | Customer | Financial
  datatype Priority = Low | Medium | High

  /** A notification; `timestamp` is in milliseconds since the epoch. */
  datatype Notification = Notification(id: string, kind: NotificationType, title: string, message: string,
                                       timestamp: int, read: bool, category: Category,
                                       priority: Priority, actionable: bool)

  /** The string literal each enumerated value is written as. */
  function TypeName(t: NotificationType): string
  {
    match t
    case Warning => "warning"
    case Success => "success"
    case Info => "info"
    case Error => "error"
  }

  function CategoryName(c: Category): string
  {
    match c
    case System => "system"
    case Sales => "sales"
    case Inventory => "inventory"
    case Customer => "customer"
    case Financial => "financial"
  }

  function PriorityName(p: Priority): string
  {
    match p
    case Low => "low"
    case Medium => "medium"
    case High => "high"
  }

  // ---------------------------------------------------------------- filter

  datatype FilterType = All | Unread | Important

  /** 'unread' drops read entries, 'important' keeps only high priority, and a category other than 'all' must match. */
  predicate Passes(n: Notification, filterType: FilterType, selectedCategory: string)
  {
    && !(filterType == Unread && n.read)
    && !(filterType == Important && n.priority != High)
    && (selectedCategory == "all" || CategoryName(n.category) == selectedCategory)
  }

  function FilteredNotifications(ns: seq<Notification>, filterType: FilterType, selectedCategory: string)
    : (r: seq<Notification>)
    ensures Sublist(r, ns)
    ensures forall n :: n in r <==> n in ns && Passes(n, filterType, selectedCategory)
    ensures forall n :: multiset(r)[n] == if Passes(n, filterType, selectedCategory) then multiset(ns)[n] else 0
  {
    FilterSublist(ns, n => Passes(n, filterType, selectedCategory));
    Filter(ns, n => Passes(n, filterType, selectedCategory))
  }

  /** The 'all' filter with category 'all' shows every notification. */
  lemma FilterAllShowsAll(ns: seq<Notification>)
    ensures FilteredNotifications(ns, All, "all") == ns
  {
    FilterAll(ns, n => Passes(n, All, "all"));
  }

  function InCategory(c: Category): Notification -> bool
  {
    (n: Notification) => n.category == c
  }

  /** The category filter applies on top of the read/priority filter. */
  lemma CategoryOnTop(ns: seq<Notification>, filterType: FilterType, c: Category)
    ensures FilteredNotifications(ns, filterType, CategoryName(c)) ==
      Filter(FilteredNotifications(ns, filterType, "all"), InCategory(c))
  {
    var unfiltered: Notification -> bool := n => Passes(n, filterType, "all");
    var both: Notification -> bool := n => Passes(n, filterType, CategoryName(c));
    forall x ensures both(x) == (unfiltered(x) && InCategory(c)(x)) {
    }
    FilterCompose(ns, unfiltered, InCategory(c), both);
  }

  /** Filtering by one predicate and then another is filtering by both. */
  lemma {:induction false} FilterCompose(s: seq<Notification>, p: Notification -> bool, q: Notification -> bool,
                                         both: Notification -> bool)
    requires forall x :: both(x) == (p(x) && q(x))
    ensures Filter(s, both) == Filter(Filter(s, p), q)
    decreases |s|
  {
    if s != [] { FilterCompose(s[1..], p, q, both); }
  }

  // ---------------------------------------------------------------- relative time

  datatype TimeLabel = JustNow | MinutesAgo(minutes: int) | HoursAgo(hours: int) | DaysAgo(days: int) | LocaleDate

  const MinuteMs: int := 60000
  const HourMs: int := 3600000
  const DayMs: int := 86400000

  /**
   * `formatTimestamp`, given `now - timestamp` in milliseconds. Whole minutes, hours
   * and days are taken by floor division; the label reports the largest unit whose
   * count is below its limit, and anything a week or older falls back to the date.
   */
  function FormatTimestamp(diff: int): (r: TimeLabel)
    ensures r == JustNow <==> diff < MinuteMs
    ensures r.MinutesAgo? <==> MinuteMs <= diff < HourMs
    ensures r.HoursAgo? <==> HourMs <= diff < DayMs
    ensures r.DaysAgo? <==> DayMs <= diff < 7 * DayMs
    ensures r == LocaleDate <==> 7 * DayMs <= diff
    ensures r.MinutesAgo? ==> r.minutes * MinuteMs <= diff < (r.minutes + 1) * MinuteMs
    ensures r.HoursAgo? ==> r.hours * HourMs <= diff < (r.hours + 1) * HourMs
    ensures r.DaysAgo? ==> r.days * DayMs <= diff < (r.days + 1) * DayMs
  {
    var minutes := diff / MinuteMs;
    var hours := diff / HourMs;
    var days := diff / DayMs;
    if minutes < 1 then JustNow
    else if minutes < 60 then MinutesAgo(minutes)
    else if hours < 24 then HoursAgo(hours)
    else if days < 7 then DaysAgo(days)
    else LocaleDate
  }

  /** A timestamp in the future reads "Just now". */
  lemma FutureIsJustNow(diff: int)
    requires diff < 0
    ensures FormatTimestamp(diff) == JustNow
  {
  }

  // ---------------------------------------------------------------- icons and colours

  datatype Icon = AlertTriangle | CheckCircle | DollarSign | Package | User | TrendingUp | InfoIcon

  /** `getNotificationIcon`: the type decides for warnings, errors and successes; otherwise the category does. */
  function NotificationIcon(kind: string, category: string): (r: Icon)
    ensures kind == "warning" || kind == "error" ==> r == AlertTriangle
    ensures kind == "success" ==> r == CheckCircle
    ensures kind !in {"warning", "error", "success"} ==> r != AlertTriangle && r != CheckCircle
    ensures r == InfoIcon <==>
      kind !in {"warning", "error", "success"} && category !in {"sales", "inventory", "customer", "financial"}
    ensures kind !in {"warning", "error", "success"} ==>
      && (r == DollarSign <==> category == "sales")
      && (r == Package <==> category == "inventory")
      && (r == User <==> category == "customer")
      && (r == TrendingUp <==> category == "financial")
  {
    if kind == "warning" || kind == "error" then AlertTriangle
    else if kind == "success" then CheckCircle
    else if category == "sales" then DollarSign
    else if category == "inventory" then Package
    else if category == "customer" then User
    else if category == "financial" then TrendingUp
    else InfoIcon
  }

  const DefaultTypeColor: string := "text-gray-600 bg-gray-100"

  /** `getNotificationColor`: one colour per known type, grey for anything else. */
  function NotificationColor(kind: string): (r: string)
    ensures r == DefaultTypeColor <==> kind !in {"warning", "error", "success", "info"}
  {
    match kind
    case "warning" => "text-yellow-600 bg-yellow-100"
    case "error" => "text-red-600 bg-red-100"
    case "success" => "text-green-600 bg-green-100"
    case "info" => "text-blue-600 bg-blue-100"
    case _ => DefaultTypeColor
  }

  const DefaultPriorityColor: string := "border-l-gray-300"

  /** `getPriorityColor`: one border colour per known priority, grey for anything else. */
  function PriorityColor(priority: string): (r: string)
    ensures r == DefaultPriorityColor <==> priority !in {"high", "medium", "low"}
  {
    match priority
    case "high" => "border-l-red-500"
    case "medium" => "border-l-yellow-500"
    case "low" => "border-l-green-500"
    case _ => DefaultPriorityColor
  }

  /** Every notification's own type and priority are known keys, so neither lookup falls back to grey. */
  lemma NotificationsHaveKnownColors(n: Notification)
    ensures NotificationColor(TypeName(n.kind)) != DefaultTypeColor
    ensures PriorityColor(PriorityName(n.priority)) != DefaultPriorityColor
  {
  }

  /** Only an info notification in the system category gets the plain info icon. */
  lemma InfoIconOnlyForSystemInfo(n: Notification)
    ensures NotificationIcon(TypeName(n.kind), CategoryName(n.category)) == InfoIcon <==>
      n.kind == Info && n.category == System
  {
  }

  // ---------------------------------------------------------------- badge and header

  datatype Badge = NoBadge | Number(n: int) | Overflow

  /** The bell badge: hidden at zero, the count itself up to 99, and "99+" above. */
  function UnreadBadge(unreadCount: int): (b: Badge)
    ensures b == NoBadge <==> unreadCount <= 0
    ensures b == Overflow <==> unreadCount > 99
    ensures b.Number? ==> b.n == unreadCount && 1 <= b.n <= 99
  {
    if unreadCount > 0 then (if unreadCount > 99 then Overflow else Number(unreadCount)) else NoBadge
  }

  /** "{n} unread notification{s}". */
  function UnreadHeader(unreadCount: nat): string
  {
    NatToString(unreadCount) + " unread notification" + (if unreadCount != 1 then "s" else "")
  }

  /** The header uses the singular exactly when there is one unread notification. */
  lemma HeaderSingularIffOne(unreadCount: nat)
    ensures UnreadHeader(unreadCount) == NatToString(unreadCount) + " unread notification" <==> unreadCount == 1
  {
    var stem := NatToString(unreadCount) + " unread notification";
    if unreadCount != 1 {
      assert |UnreadHeader(unreadCount)| == |stem| + 1;
    }
  }
}
