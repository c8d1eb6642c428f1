# SELLFORCE point-of-sale dashboard — a Dafny model of its in-memory logic

SELLFORCE is a React dashboard for small shops. Behind its views sit a few pieces of
list logic, and this project models those pieces and proves their contracts:

- the POS terminal's cart: lines per product, stock limits, totals with 8% tax,
  barcode scan, payment;
- the quick-sale dialog's second cart: no stock limit, custom-amount lines, and a
  cash-tender check;
- the application shell's notification store and tab/profile state;
- the notifications panel's filter, time labels, icons, colours and unread badge;
- the filters and aggregates of the inventory, team, customer and help views;
- the team leaderboard's in-place sort and the help desk's support-ticket form.

Modules:

| file | module | models |
|---|---|---|
| `wrappers.dfy` | `Wrappers` | `Option` |
| `lists.dfy` | `Lists` | `Array.prototype.filter`, `filter().length`, a summing `reduce` and `new Set(...)` de-duplication, with their laws |
| `text.dfy` | `Text` | ASCII `toLowerCase` and `String.prototype.includes` |
| `js_number.dfy` | `JsNumber` | `parseFloat` (a `None` result is NaN) and the decimal rendering of a natural number |
| `pos_terminal.dfy` | `PosTerminal` | src/components/pos-terminal.tsx |
| `quick_sale.dfy` | `QuickSale` | src/components/quick-sale.tsx |
| `notifications_panel.dfy` | `NotificationsPanel` | src/components/notifications-panel.tsx |
| `app.dfy` | `App` | src/App.tsx |
| `inventory.dfy` | `Inventory` | src/components/inventory-management.tsx |
| `team.dfy` | `Team` | src/components/team-management.tsx |
| `customers.dfy` | `Customers` | src/components/customer-management.tsx |
| `help_support.dfy` | `HelpSupport` | src/components/help-support.tsx |

Conventions:

- Money is `real`: tax is `subtotal * 0.08` and a total is `subtotal * 1.08`.
- Times are integer milliseconds. The current time is a parameter wherever the
  source reads the clock.
- A product catalog or other constant array is a parameter or a `const`.
- The cart transformers that components pass to `setCart` are pure functions:
  - `AddItem`, `RemoveItem` and `SetQuantity`;
  - `MarkRead`, `MarkAllRead` and `DeleteById`.
- Each component's state is a class:
  - `PosTerminal.Terminal`, `QuickSale.Sale`, `App.Shell` and `HelpSupport.HelpDesk`;
  - their methods update the fields through those functions;
  - each method states the new value of every field.
- The team leaderboard's `teamMembers.sort(...)` reorders the member array in place. It
  is `Team.SortBySales`, an insertion sort on an `array<Member>`, proved sorted and a
  permutation of its input.

Where the documented behaviour and the code differ, the model follows the code:

- The quick-sale cash check refuses a sale only when the tender parses to a number
  below the total. An empty or non-numeric tender is NaN, so `NaN < total` is false and
  the sale completes (`QuickSale.NaNTenderAccepted`).
- The POS adds a product that is not yet in the cart with quantity 1 and no stock check.
  So the cart invariant `PosTerminal.WellFormed` bounds each quantity by `max(1, stock)`,
  not by the stock.

## Model

| member | source | states |
|---|---|---|
| PosTerminal.FindProduct | src/components/pos-terminal.tsx:116 | the found product is the first one in catalog order with that id; none is found only when no product has the id |
| PosTerminal.StockOfMember | src/components/pos-terminal.tsx:116 | with unique catalog ids, the stock looked up by a product's id is that product's stock |
| PosTerminal.FindByBarcode | src/components/pos-terminal.tsx:133 | a found product is the first one in catalog order whose barcode equals the input exactly; nothing is found only when no barcode matches |
| PosTerminal.FilteredProducts | src/components/pos-terminal.tsx:76-81 | an order-preserving sublist holding exactly the products that pass the category and search tests (the name matched ignoring case, the barcode matched as typed), each with its multiplicity |
| PosTerminal.FilteredProductsAll | src/components/pos-terminal.tsx:76-81 | 'All' with an empty search shows the whole catalog |
| PosTerminal.FindLine | src/components/pos-terminal.tsx:85 | the index of the first line for the id, and none exactly when no line has the id |
| PosTerminal.WithQuantityOne | src/components/pos-terminal.tsx:114-124 | with unique ids, setting the quantity of the line with a given id changes that line's quantity and nothing else |
| PosTerminal.WithQuantityAbsent | src/components/pos-terminal.tsx:114-124 | setting the quantity of an id with no line leaves the cart as it is |
| PosTerminal.AddItem | src/components/pos-terminal.tsx:83-101 | adding a product already in the cart keeps the length and the products; when accepted, every line with that id gains one unit on its own quantity and every other line keeps its quantity; adding a new one appends one line of quantity 1 at the end; ids stay unique |
| PosTerminal.AddExisting | src/components/pos-terminal.tsx:85-96 | on an existing line, the quantity goes up by exactly 1 when below the product's stock, and otherwise the cart is unchanged |
| PosTerminal.RemoveItem | src/components/pos-terminal.tsx:103-105 | an order-preserving sublist with exactly the lines whose id differs, each with its multiplicity |
| PosTerminal.RemoveExisting | src/components/pos-terminal.tsx:103-105 | with unique ids, removal deletes exactly the one line and keeps the lines before and after it in order |
| PosTerminal.RemoveAbsent | src/components/pos-terminal.tsx:103-105 | removing an id with no line is a no-op |
| PosTerminal.RemoveIdempotent | src/components/pos-terminal.tsx:103-105 | removing twice is removing once |
| PosTerminal.SetQuantity | src/components/pos-terminal.tsx:107-126 | n ≤ 0 is removal; a positive n above the stock leaves the cart unchanged, and a product missing from the catalog has stock 0; an id with no line changes nothing |
| PosTerminal.SetQuantityWithinStock | src/components/pos-terminal.tsx:113-125 | 0 < n ≤ stock sets that line's quantity to exactly n and changes no other line |
| PosTerminal.AddItemWellFormed | src/components/pos-terminal.tsx:83-101 | adding a catalog product keeps ids unique and each quantity between 1 and max(1, stock) |
| PosTerminal.RemoveItemWellFormed | src/components/pos-terminal.tsx:103-105 | removal keeps the cart invariant |
| PosTerminal.SetQuantityWellFormed | src/components/pos-terminal.tsx:107-126 | setting a quantity keeps the cart invariant |
| PosTerminal.Total | src/components/pos-terminal.tsx:128-130 | the total is the subtotal times 1.08, that is subtotal plus 8% tax |
| PosTerminal.EmptyTotals | src/components/pos-terminal.tsx:128-130 | subtotal, tax and total are all 0 for an empty cart |
| PosTerminal.TotalsNonNegative | src/components/pos-terminal.tsx:128-130 | with non-negative prices and quantities, 0 ≤ subtotal ≤ total |
| PosTerminal.AddNewSubtotal | src/components/pos-terminal.tsx:97-99 | adding a new product raises the subtotal by its price |
| PosTerminal.AddExistingSubtotal | src/components/pos-terminal.tsx:85-96 | adding an existing product raises the subtotal by its price when below stock, and by nothing otherwise |
| PosTerminal.OneColaTotals | src/components/pos-terminal.tsx:55-66 | one unit of the first sample product gives subtotal 3.00, tax 0.24 and total 3.24 |
| PosTerminal.Terminal.constructor | src/components/pos-terminal.tsx:69-74 | empty cart, category 'All', empty search, barcode and phone, cash payment |
| PosTerminal.Terminal.AddToCart | src/components/pos-terminal.tsx:83-101 | the cart becomes `AddItem` of the old cart and the invariant holds; other fields are unchanged |
| PosTerminal.Terminal.RemoveFromCart | src/components/pos-terminal.tsx:103-105 | the cart becomes `RemoveItem` of the old cart; other fields are unchanged |
| PosTerminal.Terminal.UpdateQuantity | src/components/pos-terminal.tsx:107-126 | the cart becomes `SetQuantity` of the old cart against the catalog; other fields are unchanged |
| PosTerminal.Terminal.HandleBarcodeScan | src/components/pos-terminal.tsx:132-141 | a matching product is added and the input cleared; with no match, cart and input are unchanged |
| PosTerminal.Terminal.ProcessPayment | src/components/pos-terminal.tsx:143-154 | an empty cart changes nothing; otherwise the total is charged and cart, phone and barcode input are cleared, whatever the payment method |
| PosTerminal.Terminal.ClearCart | src/components/pos-terminal.tsx:156-158 | the cart is emptied and nothing else changes |
| QuickSale.FilteredItems | src/components/quick-sale.tsx:58-60 | an order-preserving sublist of exactly the items whose name contains the query ignoring case, each with its multiplicity |
| QuickSale.AddItem | src/components/quick-sale.tsx:62-75 | an existing line keeps the length and the other lines; a new item is appended with quantity 1; positive quantities and unique ids are kept |
| QuickSale.AddExisting | src/components/quick-sale.tsx:65-70 | an existing line's quantity goes up by exactly 1, with no upper bound |
| QuickSale.SetQuantity | src/components/quick-sale.tsx:77-87 | n ≤ 0 keeps exactly the other lines in order, each with its multiplicity; n > 0 sets every line with that id to n, with no stock check, and leaves the others |
| QuickSale.SetQuantityOne | src/components/quick-sale.tsx:81-85 | with unique ids and n > 0, exactly that line's quantity becomes n |
| QuickSale.Total | src/components/quick-sale.tsx:89-91 | total is the subtotal times 1.08, as in the POS |
| QuickSale.CheckSale | src/components/quick-sale.tsx:94-103 | an empty cart is refused as empty; an insufficient tender is reported only for cash |
| QuickSale.ShownChangeNonNegative | src/components/quick-sale.tsx:311-315 | change is displayed only when it exists and is ≥ 0 |
| QuickSale.ShownChangeCompletes | src/components/quick-sale.tsx:100-103 | a non-empty cash sale whose change is displayed is accepted |
| QuickSale.CashRefusal | src/components/quick-sale.tsx:100-103 | a non-empty cash sale is refused exactly when the tender parses to a number below the total |
| QuickSale.ExactTenderAccepted | src/components/quick-sale.tsx:100-103 | a tender equal to the total is accepted |
| QuickSale.NaNTenderAccepted | src/components/quick-sale.tsx:100-103 | an empty or non-numeric tender is not refused |
| QuickSale.NonCashAccepted | src/components/quick-sale.tsx:100 | card and mobile sales of a non-empty cart are never refused |
| QuickSale.CustomAmountNeedsOnlyANumber | src/components/quick-sale.tsx:117 | a custom amount is taken exactly when the prompt returned text that `parseFloat` reads as a number |
| QuickSale.CustomIdsDiffer | src/components/quick-sale.tsx:119 | custom lines made at different times get different ids |
| QuickSale.CustomIdNotInGrid | src/components/quick-sale.tsx:40-50 | no custom id is the id of a grid item, so a custom line never merges with a grid line |
| QuickSale.Sale.constructor | src/components/quick-sale.tsx:52-55 | empty cart, search and tender, cash payment |
| QuickSale.Sale.AddToCart | src/components/quick-sale.tsx:62-75 | the cart becomes `AddItem` of the old cart; other fields are unchanged |
| QuickSale.Sale.UpdateQuantity | src/components/quick-sale.tsx:77-87 | the cart becomes `SetQuantity` of the old cart; other fields are unchanged |
| QuickSale.Sale.ClearCart | src/components/quick-sale.tsx:111-113 | the cart is emptied and nothing else changes |
| QuickSale.Sale.HandleCompleteSale | src/components/quick-sale.tsx:94-109 | a refused sale leaves every field unchanged; a completed one reports the total, empties the cart, resets the tender and closes the dialog |
| QuickSale.Sale.AddCustomAmount | src/components/quick-sale.tsx:115-127 | numeric input appends one quantity-1 line at the parsed price under `custom-<now>`; other input changes nothing |
| JsNumber.ParseFloat | src/components/quick-sale.tsx:92 | `parseFloat` yields a number exactly when the text, after leading white space and an optional sign, starts with a digit or with a point and a digit |
| JsNumber.ParseNatToString | src/components/quick-sale.tsx:117-121 | `parseFloat` reads back the decimal rendering of a natural number as that number |
| JsNumber.ParseEmpty | src/components/quick-sale.tsx:92 | `parseFloat('')` is NaN |
| JsNumber.ParseDecimalPoint | src/components/quick-sale.tsx:92 | a `<digits>.<digits>` tender text parses to its integer digits plus its fraction digits divided by ten to the number of fraction digits |
| JsNumber.ParseNonNumeric | src/components/quick-sale.tsx:117 | text starting with anything but white space, a sign, a point or a digit is NaN |
| NotificationsPanel.FilteredNotifications | src/components/notifications-panel.tsx:102-107 | an order-preserving sublist of exactly the notifications that pass: 'unread' drops read ones, 'important' keeps priority high, a category other than 'all' must match; each passing entry keeps its multiplicity |
| NotificationsPanel.FilterAllShowsAll | src/components/notifications-panel.tsx:102-107 | 'all' with category 'all' shows everything |
| NotificationsPanel.CategoryOnTop | src/components/notifications-panel.tsx:105 | choosing a category is filtering the type-filtered list by that category |
| NotificationsPanel.FormatTimestamp | src/components/notifications-panel.tsx:88-100 | each label exactly on its interval (under 1 minute, 60 minutes, 24 hours, 7 days, else the date), with the floored count bounding the difference |
| NotificationsPanel.FutureIsJustNow | src/components/notifications-panel.tsx:95 | a timestamp in the future reads "Just now" |
| NotificationsPanel.NotificationIcon | src/components/notifications-panel.tsx:59-67 | warning or error gives the alert icon and success the check icon whatever the category; the info icon exactly when no rule applies; otherwise the category decides: sales gives the dollar icon, inventory the package, customer the user and financial the trend icon, each exactly for its category |
| NotificationsPanel.NotificationColor | src/components/notifications-panel.tsx:69-77 | the default colour exactly for an unknown type |
| NotificationsPanel.PriorityColor | src/components/notifications-panel.tsx:79-86 | the default border exactly for an unknown priority |
| NotificationsPanel.NotificationsHaveKnownColors | src/components/notifications-panel.tsx:69-86 | a well-typed notification never gets a default colour |
| NotificationsPanel.InfoIconOnlyForSystemInfo | src/components/notifications-panel.tsx:59-67 | a well-typed notification gets the info icon exactly when it is an info notification in the system category |
| NotificationsPanel.UnreadBadge | src/components/notifications-panel.tsx:124-128 | no badge at 0 or below, "99+" above 99, otherwise the count itself |
| NotificationsPanel.HeaderSingularIffOne | src/components/notifications-panel.tsx:138 | the header is singular exactly when the count is 1 |
| App.MarkRead | src/App.tsx:109-113 | same length and order; an entry is read afterwards iff it was read or has that id; no other field changes |
| App.MarkAllRead | src/App.tsx:115-117 | every entry is read and nothing else changes |
| App.DeleteById | src/App.tsx:119-121 | an order-preserving sublist with exactly the entries whose id differs, each with its multiplicity |
| App.UnreadCount | src/App.tsx:123 | the unread count never exceeds the list length |
| App.UnreadPlusRead | src/App.tsx:123 | unread and read entries together are all entries |
| App.MarkAllReadClearsUnread | src/App.tsx:115-117 | after marking all as read the unread count is 0 |
| App.MarkAllReadIdempotent | src/App.tsx:115-117 | marking all as read twice is marking once |
| App.MarkReadUnread | src/App.tsx:109-113 | after marking an id read, the unread entries are exactly the unread ones with another id |
| App.MarkReadNoUnread | src/App.tsx:109-113 | marking an id with no unread entry changes nothing |
| App.DeleteAbsent | src/App.tsx:119-121 | deleting an absent id is a no-op |
| App.DeleteIdempotent | src/App.tsx:119-121 | deleting twice is deleting once |
| App.UnreadViewMatchesCount | src/App.tsx:123 | the panel's 'unread' view holds as many entries as the unread count passed to it |
| App.Shell.constructor | src/App.tsx:83-88 | tab 'dashboard', profile and quick sale closed, the sample notifications |
| App.Shell.HandleTabChange | src/App.tsx:104-107 | the tab becomes the value and the profile is always closed |
| App.Shell.OpenProfile | src/App.tsx:233-236 | the profile opens on the 'profile' tab |
| App.Shell.CloseProfile | src/App.tsx:374 | the profile closes and the tab stays |
| App.Shell.SetShowQuickSale | src/App.tsx:189 | the quick-sale dialog opens or closes and nothing else changes |
| App.Shell.HandleMarkAsRead | src/App.tsx:109-113 | the list becomes `MarkRead` of the old list |
| App.Shell.HandleMarkAllAsRead | src/App.tsx:115-117 | the list becomes `MarkAllRead` of the old list and the unread count is 0 |
| App.Shell.HandleDeleteNotification | src/App.tsx:119-121 | the list becomes `DeleteById` of the old list |
| Inventory.FilteredProducts | src/components/inventory-management.tsx:195-201 | an order-preserving sublist of exactly the products whose name or SKU contains the query ignoring case and whose category and status match or are 'All', each with its multiplicity |
| Inventory.FilteredProductsAll | src/components/inventory-management.tsx:195-201 | an empty search with 'All'/'All' lists every product |
| Inventory.Categories | src/components/inventory-management.tsx:203 | 'All', then each category some product has, exactly once, in first-occurrence order |
| Inventory.CriticalItems | src/components/inventory-management.tsx:211 | an order-preserving sublist of exactly the out-of-stock and low-stock products, each with its multiplicity |
| Inventory.FastMovingItems | src/components/inventory-management.tsx:212 | exactly the fast movers, in order, each with its multiplicity |
| Inventory.SlowMovingItems | src/components/inventory-management.tsx:213 | exactly the slow movers, in order, each with its multiplicity |
| Inventory.AlertCountIsCritical | src/components/inventory-management.tsx:207-208 | the low-stock and out-of-stock counts add up to the critical list's length, which the alert card shows |
| Inventory.TotalValueNonNegative | src/components/inventory-management.tsx:209 | with non-negative stock and cost the stock value is non-negative |
| Inventory.TotalValueAppend | src/components/inventory-management.tsx:209 | one more product adds its stock × cost to the value |
| Inventory.OutOfStockAlert | src/components/inventory-management.tsx:245-253 | the banner appears iff the count is positive, with plural wording iff the count exceeds 1 |
| Inventory.LowStockAlert | src/components/inventory-management.tsx:264-272 | the banner appears iff the count is positive, with plural wording iff the count exceeds 1 |
| Inventory.AlertsIffCritical | src/components/inventory-management.tsx:243 | the alert section appears exactly when some product is out of stock or low on stock |
| Team.RoleNameInjective | src/components/team-management.tsx:49 | distinct roles have distinct names |
| Team.FilteredMembers | src/components/team-management.tsx:185-191 | an order-preserving sublist of exactly the members whose name or e-mail contains the query ignoring case and whose role and status match or are 'All', each with its multiplicity |
| Team.FilteredMembersAll | src/components/team-management.tsx:185-191 | an empty search with 'All'/'All' lists every member |
| Team.Roles | src/components/team-management.tsx:193 | 'All', then each role some member has, exactly once, in first-occurrence order |
| Team.AggregateBounds | src/components/team-management.tsx:197-199 | the active and top-performer counts never exceed the team size |
| Team.TodayTotalSalesNonNegative | src/components/team-management.tsx:198 | with non-negative sales the day's total is non-negative |
| Team.AvgPerformance | src/components/team-management.tsx:200 | defined exactly for a non-empty team, and then average × size = total performance |
| Team.AvgPerformanceIsPercentage | src/components/team-management.tsx:200 | when every performance is between 0 and 100, so is the average |
| Team.TopPerformerIndex | src/components/team-management.tsx:202-204 | the first member of maximal performance: nobody scores higher and everyone before scores strictly lower |
| Team.TopPerformerOfWeek | src/components/team-management.tsx:202-204 | a member of the team whom nobody outperforms, and the first such member in team order, as `reduce` with a strict '>' keeps |
| Team.PerformanceColor | src/components/team-management.tsx:174-178 | green iff ≥ 90, yellow iff in [80, 90), red iff < 80 |
| Team.PerformanceColorMonotone | src/components/team-management.tsx:174-178 | a higher performance never gets a worse colour |
| Team.InsertBySales | src/components/team-management.tsx:494 | one insertion step keeps the array's elements and extends the sorted prefix by one |
| Team.SortBySales | src/components/team-management.tsx:494 | the array ends non-increasing in today's sales and is a permutation of what it held |
| Team.Leaderboard | src/components/team-management.tsx:493-496 | sorts the members in place, then shows the first min(5, n): sorted, drawn from the members, and none of the rest sold more |
| Team.Achievements | src/components/team-management.tsx:447-461 | no row without achievements; exactly the first two badges (all of them when there are at most two); a "+k more" badge exactly when there are more than two, with k the number left over |
| Customers.FilteredCustomers | src/components/customer-management.tsx:155-161 | an order-preserving sublist of exactly the customers whose name or e-mail contains the query ignoring case or whose phone contains it as typed, and whose tier matches or is 'All', each with its multiplicity |
| Customers.PhoneDecides | src/components/customer-management.tsx:155-161 | for a customer whose name and e-mail miss the query, selection holds exactly when the phone contains the query as typed and the tier passes |
| Customers.PhoneMatchIsCaseSensitive | src/components/customer-management.tsx:158 | the phone test does not ignore case: a customer with phone "x12" is listed for "x" and not for "X" |
| Customers.FilteredCustomersAll | src/components/customer-management.tsx:155-161 | an empty search with 'All' lists every customer |
| Customers.ActiveCustomers | src/components/customer-management.tsx:164-166 | the active count never exceeds the number of customers |
| Customers.ActiveBoundary | src/components/customer-management.tsx:165 | a visit exactly 30 days ago is no longer active, one a millisecond later still is |
| Customers.ActiveCustomersFall | src/components/customer-management.tsx:164-166 | as time passes the active count can only fall |
| Customers.TotalRevenueNonNegative | src/components/customer-management.tsx:167 | revenue from non-negative spends is non-negative |
| Customers.AvgOrderValue | src/components/customer-management.tsx:168 | defined exactly when total orders are non-zero, and then average × orders = revenue |
| Customers.LoyaltyPartition | src/components/customer-management.tsx:170-175 | the four tier counts add up to the number of customers |
| HelpSupport.FilteredFaqs | src/components/help-support.tsx:135-139 | an order-preserving sublist of exactly the entries whose question, answer or category contains the query ignoring case, each with its multiplicity |
| HelpSupport.FilteredTutorials | src/components/help-support.tsx:141-145 | an order-preserving sublist of exactly the tutorials whose title, description or category contains the query ignoring case, each with its multiplicity |
| HelpSupport.FilteredFaqsAll | src/components/help-support.tsx:135-139 | an empty search keeps every entry |
| HelpSupport.FilteredTutorialsAll | src/components/help-support.tsx:141-145 | an empty search keeps every tutorial |
| HelpSupport.FaqSearchIgnoresCase | src/components/help-support.tsx:135-139 | a query and its lower-case form find the same entries |
| HelpSupport.InitialTicketRejected | src/components/help-support.tsx:128-133 | the blank form cannot be submitted |
| HelpSupport.WhitespaceSubjectPasses | src/components/help-support.tsx:148 | a subject of spaces passes validation, whatever the priority and category |
| HelpSupport.HelpDesk.constructor | src/components/help-support.tsx:126-133 | tab 'faq', empty search, the blank ticket |
| HelpSupport.HelpDesk.SetSubject | src/components/help-support.tsx:387 | only the subject changes |
| HelpSupport.HelpDesk.SetPriority | src/components/help-support.tsx:398 | only the priority changes |
| HelpSupport.HelpDesk.SetCategory | src/components/help-support.tsx:413 | only the category changes |
| HelpSupport.HelpDesk.SetMessage | src/components/help-support.tsx:431 | only the message changes |
| HelpSupport.HelpDesk.SubmitTicket | src/components/help-support.tsx:147-160 | accepted iff subject and message are non-empty; a refused ticket is left as it was, an accepted one resets the form to the blank ticket |
| HelpSupport.DifficultyColor | src/components/help-support.tsx:162-169 | one colour per known difficulty, grey exactly for anything else |
| HelpSupport.CategoryIconOf | src/components/help-support.tsx:171-181 | one icon per known category, the help icon exactly for anything else |

## Left out

- Rendering is not modelled: JSX, Tailwind classes, icons as components, charts and
  the widget libraries. A colour or icon is an enumeration value or a class string.
- Toast messages are not modelled. They are calls into a notification library and
  change no state here.
- `prompt` and `Date.now`/`new Date()` are parameters: the prompt's answer as an
  `Option<string>`, the current time and the time difference as integers.
- `toFixed`, `toLocaleString` and `toLocaleDateString` formatting are not modelled. The
  locale date is a single label, `LocaleDate`.
- JS floating point is not modelled. Prices are exact reals, so no rounding or overflow
  is claimed.
- JsNumber.ParseFloat: reads decimal numbers with an optional fraction and exponent, after
  skipping the ECMAScript white space and line terminators (ASCII and Unicode). It does not
  accept "Infinity", and it ignores float rounding and overflow.
- Text.Lower: lower-cases ASCII letters only; JS `toLowerCase` also maps non-ASCII
  letters.
- The simulated login `setTimeout` in src/App.tsx is not modelled. It is asynchronous
  timing, not logic.
- `handleNotificationAction` is not modelled: it only raises toasts.
- The quick-sale calculator overlay is not modelled: it is static markup.
- The colour and icon lookups whose results are not named anywhere are not modelled:
  - inventory status and velocity;
  - team status and role;
  - customer tier colour and icon.
- src/components/dashboard.tsx, financial-intelligence.tsx, community-hub.tsx,
  settings.tsx, profile.tsx and footer.tsx are not part of this model. They hold
  chart figures over constants, display-only sorts and forms whose handlers only toast.
- Team.SortBySales: ties keep their order, as the engine's stable sort keeps them, but
  stability is not stated. The sort works on an array passed in, and the model does not
  follow how reordering the module-level array changes the order of later renders.
- Team.AvgPerformance: an empty team shows NaN in the source; the model returns `None`.
- Customers.AvgOrderValue: zero total orders gives Infinity or NaN in the source; the
  model returns `None`.
- Team.TopPerformerIndex: requires a non-empty team, because `reduce` without a seed
  throws on an empty array.
