# Flatmates meal and expense splitter — a Dafny model

The application records, for each flatmate, the meals they ate (lunch and
dinner units per day) and the money they put into the household pot. It
derives a household-wide cost per meal unit and, for each flatmate, a balance:
what they paid minus what their meals cost at that rate. This project models
the logic at the centre of the application and proves its laws:

- **Balance calculator** (`calculations.dfy`). It computes two household-wide
  totals with nested loops, as the source does with `forEach` over mutable
  accumulators. It derives the cost per meal unit, which is 0 when no meal was
  recorded, and computes the per-user balances rounded to cents. It also models
  the system statistics. The proofs cover:
  - one balance per user, in order, with the user's fields copied;
  - the sums of meals and of contributions;
  - exact conservation of the unrounded balances;
  - the zero-meal case;
  - rounding bounds on the sum of the rounded balances;
  - agreement between the per-user meal totals and the stats total.
- **Money** (`money.dfy`).
  - `Math.round(x * 100) / 100` on exact reals. It is the unique whole-cent
    value in `(x - 0.005, x + 0.005]`, and ties go toward +infinity.
  - `Number.prototype.toFixed(2)` as ECMA-262 specifies it. A parser reads
    its text back as the rounded number of cents.
- **Alert sweep** (`notifications.dfy`).
  - It filters the balances that are negative and have a phone number.
  - It makes one provider request per recipient and appends to an
    append-only notification log.
  - It counts the settled attempts.
  - The messaging provider and the log store are given as oracles. The
    provider's says whether the k-th message handed to it is delivered. The
    store's says whether it keeps an entry of a given status written once k
    messages have been handed over. This names every write of a sweep
    uniquely: each attempt makes at most one SENT and one FAILED write.
  - The `AlertDispatcher` class holds the log and the list of requests made.
  - The whole sweep is specified by `Effects`, the attempt of each recipient
    in turn. The log gains `Logged(Effects(..))`, and the summary counts
    `Outcomes(Effects(..))`.
- **Meals API** (`meals_api.dfy`). The `MealTable` class holds the meal rows
  and the next id the store hands out.
  - POST checks for ADMIN (401) and for the required fields (400). It then
    upserts the row on the (user, date) key, storing missing counts as 0.
  - GET filters by an optional user and an inclusive date range, and returns
    the latest date first.
  - The table invariant is: one row per key, distinct ids, ids below the
    counter.
- **Meals page** (`meals_page.dfy`). After a save, the saved meal goes to the
  top of the list and older copies with its id are dropped. The form is then
  reset and hidden.
- **Reports page** (`reports.dfy`).
  - Two `reduce`s group meal units and contributions into dictionaries keyed
    by user name. Flatmates who share a name are merged.
  - A JavaScript object is modelled as its keys in insertion order plus its
    values.
  - The page takes the union of the names, one chart series per dictionary
    (0 for a missing name), and the summary totals and average.

Amounts are exact reals and meal counts are integers. Dates are integer day
numbers. The signed-in session is a parameter (`None` when nobody is signed
in).

Three behaviours of the code are easy to misread; the model states them as
the code has them:

- **What `failed` counts.** A failed delivery is not counted as `failed`.
  `sendWhatsAppAlert` catches a provider error, logs FAILED and resolves with
  `false`. `Promise.allSettled` reports that as
  fulfilled, so `checkAndSendAlerts` counts it in `successful`. Only a promise
  that rejects is `failed`, and one rejects only when the FAILED log write
  itself fails. `Notifications.UndeliveredIsFulfilled`,
  `Notifications.ProviderFailureCountsAsSuccessful` and
  `Notifications.NoRejectionNoFailed` state this behaviour.
- **Log entries per attempt.** An attempt does not always leave a log entry.
  It leaves one only when the store accepts the write. A SENT write that fails is caught and followed by a FAILED write.
  If that write fails too, the attempt leaves no entry. The model states
  exactly that.
- **Rounding.** Balances are rounded with `Math.round`: half-up toward
  +infinity, so -0.125 becomes -0.12.
  `toFixed(2)` rounds the magnitude half-up instead, so exact negative ties can
  differ between the two. Balances are rounded before they are formatted, so
  the difference never reaches an alert text.

## Model

| member | source | states |
|---|---|---|
| Money.MathRound | src/lib/calculations.ts:57 | `Math.round` gives an integer within half of its argument, ties going up |
| Money.Round2 | src/lib/calculations.ts:57 | the rounded value is a whole number of cents and lies in `(x - 0.005, x + 0.005]` |
| Money.Round2Unique | src/lib/calculations.ts:89-90 | any whole-cent value in `(x - 0.005, x + 0.005]` is the rounded value, so rounding to cents is determined uniquely |
| Money.Round2TiesUp | src/lib/calculations.ts:57 | an exact half cent rounds up toward +infinity, for negative values too |
| Money.Round2Idempotent | src/lib/calculations.ts:57 | rounding an already rounded amount leaves it unchanged |
| Money.FixedDigitsRoundTrip | src/lib/notifications.ts:16 | the two-decimal text of a non-negative number has no sign and parses back to the number of cents `Math.round` gives |
| Money.ToFixed2RoundTrip | src/lib/notifications.ts:16 | `toFixed(2)` text parses back to the magnitude rounded to cents, with the number's sign |
| Money.ToFixed2OfCents | src/app/reports/page.tsx:236 | for a whole-cent amount, the `toFixed(2)` text is exact: it parses back to the amount's cents |
| Money.ZeroText | src/app/reports/page.tsx:248 | `toFixed(2)` of 0 is the same text "0.00" as the fallback |
| Calculations.Totals | src/lib/calculations.ts:29-39 | the nested loops accumulate exactly the sum of lunch + dinner over all meals and the sum of all contribution amounts |
| Calculations.PerMealCost | src/lib/calculations.ts:42 | with meals recorded, cost × total meals equals total contributions; with none, the cost is 0 |
| Calculations.Balances | src/lib/calculations.ts:45-59 | one balance per user in fetch order; id, name, email and phone copied; totalMeals and totalContribution are the user's sums; balance is the rounded contributions minus meals × shared cost |
| Calculations.CalculateUserBalances | src/lib/calculations.ts:19-62 | the method, built on the loop totals, returns exactly those balances |
| Calculations.GetSystemStats | src/lib/calculations.ts:64-92 | the user count, the unrounded meal total, and the contribution total and cost per meal each rounded to cents on their own |
| Calculations.SumRawIsTotalsDifference | src/lib/calculations.ts:29-48 | the unrounded balances sum to all contributions minus all meal units × cost |
| Calculations.BalancesConserved | src/lib/calculations.ts:29-48 | with at least one meal unit, the unrounded balances sum to exactly 0 |
| Calculations.ZeroMealsBalances | src/lib/calculations.ts:42-57 | with no meal units, each balance is the user's own contribution total rounded to cents |
| Calculations.SumBalancesNearRaw | src/lib/calculations.ts:45-59 | the rounded balances sum to within 0.005 per user of the unrounded sum |
| Calculations.RoundedBalancesNearZero | src/lib/calculations.ts:45-59 | with meals recorded, the rounded balances sum to within 0.005 per user of 0 |
| Calculations.PerUserMealsAddUp | src/lib/calculations.ts:46-78 | the per-user meal totals add up to the household meal total |
| Calculations.BalancesAgreeWithStats | src/lib/calculations.ts:45-88 | the balances' totalMeals add up to the stats' totalMeals |
| Calculations.TwoFlatmates | src/lib/calculations.ts:19-62 | one flatmate eats 2 units and pays nothing, the other pays 100: the cost is 50 and the balances are -100 and 100 |
| Calculations.NoUsers | src/lib/calculations.ts:19-62 | no users: no balances, zero totals and zero cost |
| Notifications.QuotedAmountOfAlert | src/lib/notifications.ts:16 | the amount after the last `$` of an alert text, before the closing sentence, is exactly `balance.toFixed(2)` |
| Notifications.AlertQuotesBalance | src/lib/notifications.ts:16 | the amount quoted in the alert for a whole-cent balance parses back to that balance's cents |
| Notifications.Recipients | src/lib/notifications.ts:60-61 | a balance is among the recipients iff it is among the balances, negative and with a non-empty phone; every recipient qualifies |
| Notifications.RecipientsCount | src/lib/notifications.ts:60-61 | each qualifying balance occurs among the recipients exactly as often as among the balances, and no other balance occurs |
| Notifications.RecipientsKeepOrder | src/lib/notifications.ts:60-61 | the recipients are a subsequence of the balances: the filter keeps their order |
| Notifications.FilterBoundaries | src/lib/notifications.ts:61 | -0.01 with a phone qualifies; a 0 balance, a null phone or an empty phone does not |
| Notifications.AttemptCases | src/lib/notifications.ts:15-53 | `true` iff delivered and the SENT entry stored, appending that entry; `false` iff not so and the catch block's FAILED write is stored, appending it; a rejection iff that write is refused too, appending nothing |
| Notifications.UndeliveredIsFulfilled | src/lib/notifications.ts:38-52 | a provider failure whose FAILED entry is stored resolves with `false`, a fulfilled promise |
| Notifications.CountFulfilledAppend | src/lib/notifications.ts:72 | one more result adds one to the fulfilled count exactly when it is fulfilled |
| Notifications.CountRejected | src/lib/notifications.ts:72-73 | rejected plus fulfilled is the number of results |
| Notifications.CountsAreMultiplicities | src/lib/notifications.ts:72-73 | the fulfilled count is the number of results fulfilled with `true` or `false`; the rejected count is the number of rejections |
| Notifications.Summarize | src/lib/notifications.ts:71-75 | total is the number of attempts and successful + failed == total |
| Notifications.NoRejectionNoFailed | src/lib/notifications.ts:71-75 | with no rejected promise, failed is 0 and every attempt is successful |
| Notifications.ProviderFailureCountsAsSuccessful | src/lib/notifications.ts:38-75 | one alert whose delivery fails but whose FAILED entry is stored gives `{successful: 1, failed: 0, total: 1}` |
| Notifications.AlertDispatcher.CreateLog | src/lib/notifications.ts:25-34 | a log write appends its entry iff the store accepts that write; earlier entries stay and no request is made |
| Notifications.AlertDispatcher.SendMessage | src/lib/notifications.ts:18-22 | the message is handed to the provider, which delivers it or fails |
| Notifications.AlertDispatcher.SendWhatsAppAlert | src/lib/notifications.ts:9-54 | one request to `whatsapp:<phone>` with the alert text; the outcome and the entries appended are those of `Attempt` for the provider's verdict on this message and the store's verdicts on its SENT and FAILED writes |
| Notifications.AttemptForAppends | src/lib/notifications.ts:15-53 | the attempt for a recipient appends one entry iff its promise fulfils, and that entry is the recipient's SENT or FAILED entry, stamped at the current time |
| Notifications.EntryOfAttempt | src/lib/notifications.ts:25-50 | any entry an attempt for a recipient appends is that recipient's own entry, stamped at the current time |
| Notifications.LoggedCount | src/lib/notifications.ts:60-72 | when each attempt appends one entry per fulfilled promise, the run appends as many entries as there are fulfilled promises |
| Notifications.LoggedFrom | src/lib/notifications.ts:60-71 | every entry a run of attempts appends comes from one of those attempts |
| Notifications.LoggedOnePerAttempt | src/lib/notifications.ts:60-71 | when each attempt appends one entry, the run's entries are those entries, in attempt order |
| Notifications.SweepCount | src/lib/notifications.ts:60-72 | the sweep appends exactly one entry per fulfilled promise |
| Notifications.SweepEntry | src/lib/notifications.ts:25-50 | entry j of the sweep's log is the SENT or FAILED entry of one of the recipients, stamped at the current time |
| Notifications.SweepEntries | src/lib/notifications.ts:25-50 | every entry of the sweep's log is the SENT or FAILED entry of one of the recipients, stamped at the current time |
| Notifications.SweepReliable | src/lib/notifications.ts:15-71 | with a store that accepts every write, recipient i's promise fulfils with the provider's verdict, and log entry i is the recipient's SENT entry when delivered, FAILED otherwise |
| Notifications.AlertDispatcher.AlertNext | src/lib/notifications.ts:62-68 | the alert for recipient i makes that recipient's request; its outcome and entries are those of the recipient's attempt |
| Notifications.AlertDispatcher.AlertAll | src/lib/notifications.ts:60-71 | one provider request per recipient, in order; the results are the outcomes of the recipients' attempts, in order; the log gains those attempts' entries, in order |
| Notifications.AlertDispatcher.CheckAndSendAlerts | src/lib/notifications.ts:56-76 | requests, log and summary are those of the attempts for the qualifying balances; total is their number; successful + failed == total; the log grows by `successful` stamped entries and keeps its old entries; with a store that accepts every write, failed is 0 |
| MealsApi.OrZero | src/app/api/meals/route.ts:91-92 | a missing or falsy lunch or dinner becomes 0; any other value is kept |
| MealsApi.FindByKey | src/app/api/meals/route.ts:74-81 | lookup on the (userId, date) key: finds a row with that key, or reports that none has it |
| MealsApi.UpsertKeepsInvariant | src/app/api/meals/route.ts:74-123 | an upsert keeps keys unique, ids distinct and every id below the counter |
| MealsApi.UpsertLeavesOneRow | src/app/api/meals/route.ts:74-123 | after an upsert exactly one row has the key, and it is the returned row with the given lunch and dinner |
| MealsApi.UpsertUpdatesInPlace | src/app/api/meals/route.ts:84-103 | an existing row keeps its id and position, only lunch and dinner change, the size and the counter stay |
| MealsApi.UpsertCreates | src/app/api/meals/route.ts:104-123 | a new key appends exactly one row with a fresh id and the given fields; nothing else changes |
| MealsApi.UpsertLeavesOtherKeys | src/app/api/meals/route.ts:86-89 | rows with any other key are unchanged at their positions; the table grows by at most one |
| MealsApi.WhereMeansQuery | src/app/api/meals/route.ts:18-28 | the `where` object selects a meal iff it matches a truthy userId and every given date bound, inclusively |
| MealsApi.SelectMembers | src/app/api/meals/route.ts:30-44 | the selected rows are exactly the table rows matching the `where` object |
| MealsApi.InsertByDate | src/app/api/meals/route.ts:41-43 | inserting into a date-descending list keeps it date-descending and adds exactly that meal |
| MealsApi.MealTable.Post | src/app/api/meals/route.ts:56-133 | no ADMIN session: 401, table unchanged; missing or falsy userId or date: 400, table unchanged; otherwise the upsert with counts defaulted to 0, returned as 201; the table invariant is kept |
| MealsApi.MealTable.Get | src/app/api/meals/route.ts:6-54 | no session: 401; otherwise the result is date-descending and holds exactly the rows matching the query, each as often as in the table |
| MealsPage.WithoutId | src/app/meals/page.tsx:86 | the filter keeps exactly the meals whose id differs |
| MealsPage.WithoutIdKeepsOrder | src/app/meals/page.tsx:86 | the filter keeps the other meals in their original order and drops exactly the entries with that id |
| MealsPage.Refreshed | src/app/meals/page.tsx:86 | the new list starts with the saved meal, and no later element has its id |
| MealsPage.RefreshedShape | src/app/meals/page.tsx:86 | the rest of the new list is the old list in order without that id; the length is old length − copies + 1; every other meal is kept |
| MealsPage.MealsScreen.HandleSubmit | src/app/meals/page.tsx:72-93 | after a save the list is refreshed, the form emptied and hidden; on a non-ok response or an error nothing changes |
| Reports.SetKey | src/app/reports/page.tsx:97-100 | assigning a key to an object appends a new key to the key order and leaves an existing key in place |
| Reports.Dedup | src/app/reports/page.tsx:114-117 | the `Set` union holds each name of its input exactly once and nothing else |
| Reports.AddEntryGroups | src/app/reports/page.tsx:95-102 | one `reduce` step keeps the grouping: keys are the names seen in first-occurrence order, each holding its sum, and the values adding up to the total |
| Reports.GroupByName | src/app/reports/page.tsx:95-112 | each name is a key once, in first-occurrence order; its value is the sum over the entries with that name; the values sum to the sum of all entries |
| Reports.ValueOr0 | src/app/reports/page.tsx:124 | `d[name] \|\| 0` is the stored value, and 0 for a name without one |
| Reports.Series | src/app/reports/page.tsx:124-137 | one bar per name, each the dictionary's value or 0 |
| Reports.SeriesOfGroup | src/app/reports/page.tsx:124-137 | over a grouped dictionary each bar is the sum for that name, 0 for a name missing from that dictionary |
| Reports.BuildReport | src/app/reports/page.tsx:95-248 | the names are distinct and are exactly the users named by a meal or a contribution; each series bar is that name's sum; total meals is the sum of all units; total contributions and the average (total / names, "0.00" with no names) are toFixed(2) texts; active users is the number of names |

## Left out

- Storage: the Prisma ORM is not modelled. User records arrive as a sequence
  of users with their meals and contributions. The meal table is a sequence
  of rows with an id counter.
- Meal ids are natural numbers handed out by a counter. The store's string
  cuids are not modelled.
- The `user` summary that the meal handlers include in their responses is
  not modelled. Neither is the foreign key from a meal to its user.
- The meal handlers' 500 responses, which come from a store or date-parsing
  error, are not modelled.
- The messaging provider is an oracle over the message number, and the log
  store an oracle over the message count and the entry's status. The
  provider's configuration, credentials and response id are not modelled,
  and neither is the console output.
- Concurrency: the alerts are awaited together with `Promise.allSettled`. The
  model makes the attempts one after another, so the order of their log
  entries is a choice of the model.
- Floating point: the model uses exact reals. IEEE rounding error in sums, in
  `Math.round(x * 100) / 100` and in `toFixed(2)` is not modelled.
- Money.FixedDigits does not produce the exponent form that `toFixed` gives
  for magnitudes of 1e21 and above.
- Dates: dates are integer day numbers. `new Date(...)` parsing and an
  invalid date string are not modelled. `sentAt` is the clock value fixed in
  the dispatcher.
- Authentication: the next-auth session is an optional role value passed to
  the handlers.
- The meals and reports pages' fetching, loading states, rendering, charts
  and styling are not modelled. Only the list update, the form reset and the
  derived figures are.
- MealsPage.MealsScreen.HandleSubmit: the POST is given as its outcome. The
  `fetch` and JSON handling are not modelled.
- Reports.GroupByName: JavaScript lists integer-like object keys (such as
  "42") before the other keys. The model keeps every key in insertion order.
  Names that collide with `Object.prototype` members (such as "constructor")
  are not modelled either.
- MealsApi.MealTable.Get: the store returns meals that share a date in an
  unspecified order. The model returns them in table order.
- The dashboard, the layout components, the seed script, the send-alerts
  route and the contributions route are not part of this model.
