# Rapid Pay — a verified model of the payment core

Rapid Pay is a WooCommerce payment gateway for four Bangladeshi mobile-money
services (bKash, Nagad, Rocket, Upay). A customer pays outside the shop, then
enters a sender phone number and a transaction id at checkout; the order is
put on hold until an administrator verifies the payment. The plugin keeps its
own reporting table (`rapid_pay_orders`) in step with the shop's orders, and
builds its dashboard figures from that table.

This project models, in Dafny, the parts of the plugin with behaviour of their
own:

- `common.dfy` (`Common`): PHP's `empty()` on strings, the status and method
  names, the byte length PHP's `strlen` measures and the UTF-16 length
  JavaScript's `length` measures, and day windows on integer timestamps.
- `records.dfy` (`Records`): the shop's order as the plugin reads it, a row of
  the reporting table, and the table after one `save_order` sync, as pure
  functions with lemmas about inserts, updates and repeated syncs.
- `order_handler.dfy` (`OrderHandler`): `get_orders`/`get_orders_count` as
  filter, sort and page functions; the class `PaymentStore`, holding the
  shop's orders (`map<int, Order>`) and the table (`seq<Record>`), whose
  methods `SaveOrder`, `UpdateOrderStatus` and `ExpirePendingOrders` change
  both in place. The expiry loop is proved against the value-level functions
  `ExpiredOrders`/`ExpiredRows`.
- `analytics.dfy` (`Analytics`): each SQL `SUM`/`COUNT` as a recursive
  function, the additive lemmas about day windows, the chart loop and the
  per-method loop as methods, the status buckets, the custom range and the
  AJAX dispatch.
- `settings.dfy` (`Settings`): normalising the settings form on save, and the
  defaults every reader substitutes.
- `gateway.dfy` (`Gateway`): the server's checkout validation as an ordered
  chain of guards, the phone pattern `^01[0-9]{9}$` as a small anchored
  matcher, and the effect of `process_payment`.
- `checkout.dfy` (`Checkout`): the checkout page script — the digit filter,
  the blur checks, the place-order check — and how its rules relate to the
  server's.

Amounts are integer cents. Timestamps are integer seconds on one clock; a day
number `d` covers `[d*86400, d*86400 + 86399]`. Strings are sequences of
Unicode characters; the two length measures are defined on them.

## Model

| member | source | states |
|---|---|---|
| `Common.PhpEmpty` | includes/class-rapid-pay-order-handler.php:99 | PHP `empty()` on a string: true exactly for "" and "0" |
| `Common.AsciiLengths` | includes/class-rapid-pay-gateway.php:190 | on ASCII text, `strlen` (UTF-8 bytes) and `length` (UTF-16 units) both equal the number of characters |
| `Common.Utf16NotLongerThanUtf8` | assets/js/checkout.js:91 | a string never has more UTF-16 units than UTF-8 bytes, nor fewer units than characters |
| `Common.DayOf` | includes/class-rapid-pay-analytics.php:36-37 | every timestamp lies within the `00:00:00`–`23:59:59` window of the day returned |
| `Common.DayWindowUnique` | includes/class-rapid-pay-analytics.php:103-104 | a timestamp lies in the window of exactly one day |
| `Records.Snapshot` | includes/class-rapid-pay-order-handler.php:41-51 | the row written for an order carries the order's name, phones, meta fields, total and status, with the given `created_at` and `updated_at` |
| `Records.IndexOf` | includes/class-rapid-pay-order-handler.php:34-39 | the first row with the order id, or `None` exactly when no row has it |
| `Records.UpdateRows` | includes/class-rapid-pay-order-handler.php:53-61 | `UPDATE ... WHERE order_id`: the length, every order id and every `created_at` are kept; each row of the order mirrors it with `updated_at` now; every other row is unchanged |
| `Records.Synced` | includes/class-rapid-pay-order-handler.php:34-69 | `save_order`'s write: the table keeps its length when the order had a row and grows by one otherwise; existing rows keep their order id and `created_at`; afterwards the order's first row mirrors it |
| `Records.SyncedInserts` | includes/class-rapid-pay-order-handler.php:62-69 | with no row for the order, a sync appends one row mirroring the order with `created_at == updated_at == now`, keeps the old rows and keeps order ids unique |
| `Records.SyncedUpdates` | includes/class-rapid-pay-order-handler.php:41-61 | with a row for the order, a sync rewrites that row from the order, keeps its `created_at`, sets `updated_at` to now, leaves every other row untouched and keeps the length |
| `Records.ResyncAddsNoRow` | includes/class-rapid-pay-order-handler.php:34-69 | syncing the same order twice never creates a second row; the second sync keeps the first `created_at` |
| `OrderHandler.Matches` | includes/class-rapid-pay-order-handler.php:96-112 | the `WHERE` clause: the status filter when it is not PHP-empty, and both inclusive date bounds when given |
| `OrderHandler.Select` | includes/class-rapid-pay-order-handler.php:96-112 | the rows kept are exactly the table rows that satisfy the filters; every row is kept exactly when all rows match |
| `OrderHandler.SelectCounts` | includes/class-rapid-pay-order-handler.php:96-112 | a matching row is kept as many times as the table holds it, a non-matching row not at all |
| `OrderHandler.Insert` | includes/class-rapid-pay-order-handler.php:116-118 | insertion adds exactly one occurrence of the row (multiset) |
| `OrderHandler.InsertKeepsSorted` | includes/class-rapid-pay-order-handler.php:116-118 | inserting into a list ordered by `created_at` keeps it ordered |
| `OrderHandler.SortByCreated` | includes/class-rapid-pay-order-handler.php:116-118 | `ORDER BY created_at` yields a permutation of its input, ordered in the requested direction |
| `OrderHandler.Page` | includes/class-rapid-pay-order-handler.php:118-120 | `LIMIT`/`OFFSET`: rows consecutive from `offset`; none when `offset` is past the end, `limit` when enough rows follow, the rest of the list otherwise |
| `OrderHandler.GetOrders` | includes/class-rapid-pay-order-handler.php:79-127 | `min(limit, count - offset)` rows (none past the end), each a matching table row, ordered by `created_at` (newest first by default), and they are the run from position `offset` of a sorted arrangement of all matching rows |
| `OrderHandler.GetOrdersFirstPageIsTop` | includes/class-rapid-pay-order-handler.php:116-120 | on the first page, every matching row left off comes after every row on the page in the requested order |
| `OrderHandler.GetOrdersCount` | includes/class-rapid-pay-order-handler.php:135-167 | at most the table size; 0 exactly when no row matches; the table size exactly when every row matches |
| `OrderHandler.GetOrdersCountAppend` | includes/class-rapid-pay-order-handler.php:135-167 | the count adds up over two parts of the table and counts one row exactly when it matches, so it is the number of matching rows |
| `OrderHandler.GetOrdersWithinCount` | includes/class-rapid-pay-order-handler.php:79-167 | a page never holds more rows than the count with the same filters |
| `OrderHandler.FirstPageIsComplete` | includes/class-rapid-pay-order-handler.php:84-126 | when the matches fit in the first page, the page holds every one of them (a permutation of the matches) |
| `OrderHandler.DashboardQuery` | includes/class-rapid-pay-admin.php:28-50 | the dashboard's query: the status when not PHP-empty, `00:00:00` of the first day and `23:59:59` of the last day, 100 rows, newest first |
| `OrderHandler.DashboardDaysInclusive` | includes/class-rapid-pay-admin.php:37-47 | the dashboard filter keeps a row exactly when its status passes and its day lies between the chosen days, both included |
| `OrderHandler.IsStale` | includes/class-rapid-pay-order-handler.php:221-226 | a row the sweeper selects: status on-hold and `created_at` strictly before the cutoff |
| `OrderHandler.ExpiryCutoff` | includes/class-rapid-pay-order-handler.php:209-219 | the cutoff is now minus the configured hours (24 when unset) in seconds |
| `OrderHandler.SelectStale` | includes/class-rapid-pay-order-handler.php:221-226 | the ids selected are exactly those of rows on hold and created strictly before the cutoff |
| `OrderHandler.ExpiredRows` | includes/class-rapid-pay-order-handler.php:228-230 | the swept table keeps its length, every row's order id and every `created_at` |
| `OrderHandler.ExpiredOrders` | includes/class-rapid-pay-order-handler.php:228-230 | the sweep cancels orders but neither adds nor removes any |
| `OrderHandler.ExpireStep` | includes/class-rapid-pay-order-handler.php:228-230 | one `update_order_status(k, 'cancelled')` moves both stores from the state for the ids done so far to the state with `k` added; a missing order changes nothing |
| `OrderHandler.ExpireRowsStep` | includes/class-rapid-pay-order-handler.php:228-230 | re-syncing the rows of order `k` from its cancelled order equals the table swept with `k` added |
| `OrderHandler.ExpireOrdersStep` | includes/class-rapid-pay-order-handler.php:228-230 | cancelling order `k` in the swept orders equals the orders swept with `k` added |
| `OrderHandler.ExpiryCancelsExactlyStale` | includes/class-rapid-pay-order-handler.php:219-230 | exactly the stale rows of existing orders end cancelled, re-synced with `updated_at = now` and their `created_at`; every other row is unchanged |
| `OrderHandler.ExpiryIdempotent` | includes/class-rapid-pay-order-handler.php:219-230 | a second sweep at the same moment changes neither store |
| `OrderHandler.PaymentStore.SaveOrder` | includes/class-rapid-pay-order-handler.php:23-71 | an unknown order leaves the table unchanged; otherwise the table becomes its sync with the order; orders are untouched and ids stay unique |
| `OrderHandler.PaymentStore.UpdateOrderStatus` | includes/class-rapid-pay-order-handler.php:176-202 | succeeds exactly for an existing order and one of the five statuses; on failure nothing changes; on success the order and its row both carry the new status and the row is re-synced |
| `OrderHandler.PaymentStore.AdminUpdateStatus` | includes/class-rapid-pay-admin.php:201-209 | a zero order id or an empty status is refused with nothing changed; otherwise as `UpdateOrderStatus` |
| `OrderHandler.PaymentStore.CancelStale` | includes/class-rapid-pay-order-handler.php:228-230 | one loop turn takes the stores from the expiry state for the ids done to the state with one more id |
| `OrderHandler.PaymentStore.ExpirePendingOrders` | includes/class-rapid-pay-order-handler.php:207-231 | does nothing unless the stored flag is "yes"; otherwise both stores end as the value-level sweep of the stale ids at cutoff `now - hours*3600` (hours default 24) |
| `Analytics.WindowEarnings` | includes/class-rapid-pay-analytics.php:38-44 | completed amounts in an inclusive window; never negative when amounts are not |
| `Analytics.TotalEarnings` | includes/class-rapid-pay-analytics.php:69-71 | completed amounts of every date; never negative when amounts are not |
| `Analytics.WindowCount` | includes/class-rapid-pay-analytics.php:201-207 | rows of any status in the window, never more than the table size |
| `Analytics.StatusCount` | includes/class-rapid-pay-analytics.php:163-167 | rows whose status is in the set, never more than the table size |
| `Analytics.MethodEarnings` | includes/class-rapid-pay-analytics.php:133-135 | the completed amounts of one method; with non-negative amounts between 0 and the total earnings |
| `Analytics.WindowEarningsEmpty` | includes/class-rapid-pay-analytics.php:76-81 | a window with no completed row sums to 0, not to nothing |
| `Analytics.WindowEarningsSplit` | includes/class-rapid-pay-analytics.php:106-113 | two adjacent windows sum to the window that covers both |
| `Analytics.WindowEarningsMonotone` | includes/class-rapid-pay-analytics.php:46-66 | with non-negative amounts a wider window never earns less |
| `Analytics.WindowEarningsWithinTotal` | includes/class-rapid-pay-analytics.php:68-71 | with non-negative amounts no window earns more than the total |
| `Analytics.WindowEarningsAmountChange` | includes/class-rapid-pay-analytics.php:38-44 | changing one counted row's amount changes the window sum by exactly the difference |
| `Analytics.DayEarnings` | includes/class-rapid-pay-analytics.php:36-44 | completed earnings from `00:00:00` to `23:59:59` of one day |
| `Analytics.DailySeries` | includes/class-rapid-pay-analytics.php:99-117 | one figure per day of the span |
| `Analytics.DailySeriesSum` | includes/class-rapid-pay-analytics.php:99-117 | the daily figures of `n` consecutive days sum to the earnings of the whole span |
| `Analytics.GetChartData` | includes/class-rapid-pay-analytics.php:91-121 | exactly `days` labels (none for `days <= 0`), label `k` being the day `today - days + 1 + k`, so oldest first and today last; data point `k` is that day's completed earnings |
| `Analytics.WindowFigures` | includes/class-rapid-pay-analytics.php:24-83 | the dashboard figures: today's, this week's and this month's completed earnings, the total, and the 30-day chart ending today |
| `Analytics.GetAnalyticsData` | includes/class-rapid-pay-analytics.php:24-83 | today, week, month and total earnings and the 30-day chart for the given calendar |
| `Analytics.WindowFiguresOrdered` | includes/class-rapid-pay-analytics.php:36-83 | with non-negative amounts and a consistent calendar, today <= week <= total, today <= month <= total, and the chart sums to the last 30 days |
| `Analytics.GroupKeys` | includes/class-rapid-pay-analytics.php:133-135 | each method of a completed row exactly once |
| `Analytics.MethodEarningsWithoutRows` | includes/class-rapid-pay-analytics.php:139-150 | a method absent from the grouped result earned nothing |
| `Analytics.GroupTotals` | includes/class-rapid-pay-analytics.php:133-135 | one `(method, total)` pair per grouped method |
| `Analytics.GetEarningsByMethod` | includes/class-rapid-pay-analytics.php:128-151 | keys exactly bkash, nagad, rocket and upay, each its completed earnings (0 when none); other method strings are ignored |
| `Analytics.OrderStatistics` | includes/class-rapid-pay-analytics.php:158-176 | `total` counts every row; pending merges on-hold and pending |
| `Analytics.StatisticsPartition` | includes/class-rapid-pay-analytics.php:163-175 | completed + pending + cancelled + refunded <= total, with equality when every status is one of the five |
| `Analytics.CustomRangeAnalytics` | includes/class-rapid-pay-analytics.php:185-213 | completed earnings and the count of every row from the first day's `00:00:00` to the last day's `23:59:59` |
| `Analytics.CustomRangeMatchesSeries` | includes/class-rapid-pay-analytics.php:185-213 | the custom range's earnings are the daily series summed over its days; one day's range is that day's figure |
| `Analytics.CustomRangeOrdersIgnoreStatus` | includes/class-rapid-pay-analytics.php:201-207 | the order count does not depend on any row's status |
| `Analytics.AjaxGetAnalytics` | includes/class-rapid-pay-analytics.php:218-239 | the custom range exactly when the period is "custom" and both dates are given; the window figures otherwise |
| `Settings.KeepValidMethods` | rapid-pay-modified-fixed/rapid-pay/includes/class-rapid-pay-settings.php:235-236 | the kept methods are exactly the submitted values that are one of the four methods |
| `Settings.KeepValidMethodsKeepsValidList` | rapid-pay-modified-fixed/rapid-pay/includes/class-rapid-pay-settings.php:235-236 | a submission holding only valid methods is kept unchanged |
| `Settings.ClampHours` | rapid-pay-modified-fixed/rapid-pay/includes/class-rapid-pay-settings.php:239-243 | the hours end in [1, 168]: below 1 becomes 1, above 168 becomes 168, in range is kept |
| `Settings.ClampHoursIdempotent` | rapid-pay-modified-fixed/rapid-pay/includes/class-rapid-pay-settings.php:239-243 | clamping twice is clamping once |
| `Settings.SaveSettings` | rapid-pay-modified-fixed/rapid-pay/includes/class-rapid-pay-settings.php:224-257 | every key is stored; methods are the valid submitted ones (none when none posted); "yes" exactly when the box was ticked; hours clamped, default 24; min/max default 0; currency defaults to the shop's |
| `Settings.EnabledMethods` | includes/class-rapid-pay-gateway.php:157 | the methods checkout accepts: the stored list, or all four when none is stored |
| `Settings.MinAmount` | includes/class-rapid-pay-gateway.php:196 | the stored minimum, or 0 (no bound) |
| `Settings.MaxAmount` | includes/class-rapid-pay-gateway.php:197 | the stored maximum, or 0 (no bound) |
| `Settings.AutoExpireOn` | includes/class-rapid-pay-order-handler.php:209-214 | the sweeper runs only when the stored flag is exactly "yes" (unset reads as "no") |
| `Settings.AutoExpireHours` | includes/class-rapid-pay-order-handler.php:210 | the stored hours, or 24 |
| `Settings.ReadSettings` | rapid-pay-modified-fixed/rapid-pay/includes/class-rapid-pay-settings.php:36-43 | key by key: stored methods or all four; stored amounts or 0; stored hours or 24; stored expiry flag or "no"; stored currency or the shop's; instruction text "" and no admin phones when unset |
| `Settings.ReadUnsavedDefaults` | rapid-pay-modified-fixed/rapid-pay/includes/class-rapid-pay-settings.php:36-43 | before any save: all four methods, 24 hours, expiry "no", min and max 0 |
| `Settings.ReadAfterSave` | rapid-pay-modified-fixed/rapid-pay/includes/class-rapid-pay-settings.php:224-257 | read back after a save, only valid methods remain, hours lie in [1, 168] and expiry is on exactly when the box was ticked |
| `Gateway.PhoneMatch` | includes/class-rapid-pay-gateway.php:178 | the anchored pattern `^01[0-9]{9}$` matched position by position |
| `Gateway.DigitsMatch` | includes/class-rapid-pay-gateway.php:178 | `[0-9]{n}` matches exactly the strings of `n` digits |
| `Gateway.PhoneMatchShape` | includes/class-rapid-pay-gateway.php:178-181 | a phone matches exactly when it has 11 characters, starts with "01" and the rest are digits |
| `Gateway.PhoneMatchNotEmpty` | includes/class-rapid-pay-gateway.php:172-181 | a matching phone is never PHP-empty |
| `Gateway.Fails` | includes/class-rapid-pay-gateway.php:155-213 | each guard's failing condition: PHP-empty fields, a method not in the enabled list, a phone not matching, an id under five bytes, a total outside a bound that is set |
| `Gateway.ValidateFields` | includes/class-rapid-pay-gateway.php:155-213 | accepted exactly when no check fails; a rejection names a failing check, and every check before it in source order passed |
| `Gateway.AcceptedMeans` | includes/class-rapid-pay-gateway.php:157-212 | acceptance spelled out: an enabled method, a well-formed phone, at least five bytes of transaction id, a total within each bound that is set (bounds inclusive) |
| `Gateway.TransactionIdRule` | includes/class-rapid-pay-gateway.php:184-193 | the empty and length checks together pass exactly when the id has at least five bytes |
| `Gateway.UnsavedSettingsAcceptEveryMethod` | includes/class-rapid-pay-gateway.php:156-169 | with no stored settings, each of the four methods passes the method checks and no amount bound applies |
| `Gateway.ProcessPayment` | includes/class-rapid-pay-gateway.php:221-263 | the order gets the three posted fields and status on-hold, and its row is synced, so the row is on hold and mirrors the order |
| `Checkout.StripNonDigits` | assets/js/checkout.js:10-13 | the result is all digits and never longer than the input |
| `Checkout.StripNonDigitsKeepsDigits` | assets/js/checkout.js:11 | every digit survives as often as it was typed, and no other character survives |
| `Checkout.StripNonDigitsAppend` | assets/js/checkout.js:10-13 | filtering a concatenation is concatenating the filtered parts, so digits keep their order |
| `Checkout.StripNonDigitsIdentity` | assets/js/checkout.js:10-13 | the filter leaves a value unchanged exactly when it is all digits |
| `Checkout.StripNonDigitsIdempotent` | assets/js/checkout.js:10-13 | filtering twice is filtering once |
| `Checkout.PhoneBlurFlags` | assets/js/checkout.js:16-27 | on blur the phone field is marked when it is non-empty and does not match the pattern |
| `Checkout.TransactionIdBlurFlags` | assets/js/checkout.js:30-40 | on blur the id field is marked when it is non-empty and shorter than five UTF-16 units |
| `Checkout.FieldPasses` | assets/js/checkout.js:72-95 | each field's place-order rule: a chosen method, a non-empty matching phone, a non-empty id of at least five units |
| `Checkout.PlaceOrder` | assets/js/checkout.js:69-98 | each field is marked exactly when its own rule fails, all three checks run, and the order goes ahead exactly when none is marked |
| `Checkout.BlurFlagsAgreeWithPlaceOrder` | assets/js/checkout.js:16-40 | the blur checks mark a non-empty field exactly when place-order would; an empty field is never marked on blur |
| `Checkout.PhoneRulesAgree` | assets/js/checkout.js:81-87 | client and server accept exactly the same phones, for every string |
| `Checkout.TransactionIdRulesAgreeOnAscii` | assets/js/checkout.js:90-95 | on ASCII text, client and server accept exactly the same transaction ids |
| `Checkout.ClientTransactionIdPassesServer` | assets/js/checkout.js:90-95 | any id the client accepts, the server accepts too |
| `Checkout.TransactionIdRulesDivergeOffAscii` | assets/js/checkout.js:91 | "ééé" has 6 bytes but 3 UTF-16 units: the server accepts it and the client does not |
| `Checkout.ServerAcceptedPassesClient` | assets/js/checkout.js:69-98 | with an ASCII transaction id, a checkout the server accepts passes all three client checks |

## Left out

- The clock: records are stamped with the site's local time (`current_time('mysql')`), while the analytics windows and the expiry cutoff are computed in UTC (`gmdate`). The model has one clock, so it does not show the offset by which the two can disagree.
- Calendar arithmetic: `strtotime('monday this week')`, `'sunday this week'`, the first and last day of the month and "N days ago" are inputs (`Analytics.Calendar`, day numbers). `Analytics.WindowFiguresOrdered` assumes that today lies in this week and this month.
- Chart labels are day numbers; their `M d` text formatting is not modelled.
- Dates arrive as strings in `get_orders`, the dashboard and the AJAX handler. The model takes them as `Option<int>` (no date = `None`), so `empty()` on a date string (for example "0") and malformed dates are not modelled.
- `OrderHandler.GetOrders`: the order of rows with equal `created_at` is left to the database. The contract states the page size, membership, sortedness and that the page is a run of some sorted arrangement of the matches, not which of two tied rows comes first. The `orderby` argument is fixed to `created_at`, the only column the plugin's callers use.
- `OrderHandler.PaymentStore.SaveOrder`, `OrderHandler.PaymentStore.UpdateOrderStatus`, `Gateway.ProcessPayment`: the source does not check whether `$wpdb->update` or `$wpdb->insert` succeeded, and `update_order_status` reports success after `save_order` regardless. The model takes every write as successful, so its claims that the row carries the new values hold only when the database accepts the write.
- `Records.Snapshot`, `Gateway.ValidateFields`: column widths (`transaction_id varchar(100)`, `sender_phone varchar(20)`, `customer_name varchar(255)`, `status varchar(20)`, `payment_method varchar(50)`) and the `decimal(10,2)` range of `amount` are not modelled. Strings and amounts are unbounded, and validation sets no upper length, so a value the database would truncate or reject is stored whole in the model.
- `OrderHandler.Matches`, `OrderHandler.DashboardQuery`, `Analytics.GroupKeys`, `Analytics.StatusCount`, `Analytics.MethodEarnings`: the table is created with the site's collation, so `status = %s` and `GROUP BY payment_method` compare strings under that collation (typically case- and accent-insensitive). The model compares strings exactly.
- `Settings.KeepValidMethods`: `array_intersect` keeps the submitted array keys. The model is a sequence of values, so the keys are not modelled (`in_array` ignores them).
- Floating point: amounts are integer cents. `floatval`, `intval` on non-numeric text and `format_currency` are not modelled; a posted hours value is taken after `intval`.
- `Checkout.ServerAcceptedPassesClient`, `Checkout.TransactionIdRulesAgreeOnAscii`, `Checkout.PhoneRulesAgree`: these compare the client's raw value with the server's value after `sanitize_text_field`, `sanitize_textarea_field` and `wp_unslash`, which the model takes as identity. The real sanitisers can change a string and its length, for example by stripping tags, octets or a lone "<", so the agreement holds only for values the sanitiser leaves alone. One further consequence: the PCRE `$` would also match before a final line break, but the sanitiser removes line breaks first, so that case cannot reach the phone match and is not modelled.
- `process_payment`: the order note, the stock reduction, emptying the cart and the redirect are not modelled. `wc_get_order` always finds the order there (the source does not check it), which is the `requires` of `Gateway.ProcessPayment`.
- `ajax_get_analytics` passes `period` to `get_analytics_data`, which does not use it; the model leaves it out.
- The table's own `id` column is not modelled; rows are identified by `order_id`.
- Nonce and capability checks, error notices, HTML rendering, DOM manipulation, the chart drawing in `admin.js`, plugin bootstrap, table creation and cron scheduling: I/O and framework glue.
- Concurrency: two requests syncing the same order at once (last writer wins, or a duplicate insert) are out of scope; every method runs alone.
