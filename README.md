# Clinic loyalty points ledger — a Dafny model

The system is a loyalty programme shared by a group of clinics. Customers earn points when they
pay a bill at any clinic and redeem points as a cash discount. Three web dashboards read and
write one shared store (tables `users`, `clinics`, `transactions`, `redemptions`, `promotions`,
`system_config`):

- the **staff terminal** finds a customer by typed text or by a scanned loyalty-card code,
  awards points for a bill and redeems points for cash;
- the **customer dashboard** shows the loyalty card (a QR code of a small JSON object), the
  balance and its cash value, the customer's history and its totals, and the running
  promotions;
- the **admin dashboard** computes programme analytics (members, points in circulation, top
  clinic by revenue, average spend), lists customers with their spend and visits, saves the two
  conversion rates and creates promotions.

A registration form checks the password before it asks the authentication service for an
account, and the application shell routes a signed-in user to a dashboard by role.

The model is organised as follows:

- `schema.dfy` holds the store: a `Database` class with one sequence of rows per table. A
  `Tables` value is a snapshot of it.
- `ledger.dfy` holds the point and cash formulas and the two writes of each ledger operation.
  It also defines what it means for a stored balance to agree with the ledger rows.
- Each dashboard is a class. Its fields are the component's state and its methods are the
  handlers. Each handler's contract gives the complete new state on every branch.
- A store call whose result the model cannot know (a network or store failure) becomes a
  boolean parameter. So do the creation time and identifiers that the store generates.
- `json.dfy`, `text.dfy` and `folds.dfy` model the JavaScript behaviour the code relies on:
  `JSON.stringify`/`JSON.parse`, truthiness, `String(v)`, `trim`, `.length`, `reduce` and the
  ordering of ISO-8601 timestamps.

The main results are these:

- A card produced by the customer dashboard makes the staff search look up exactly that
  customer's id.
- A completed award or redemption keeps the stored balance equal to the opening balance plus
  the credits minus the debits recorded for the customer. It leaves every other customer
  unchanged.
- The handlers' design allows the ledger to diverge in three ways, each proved:
  - Two operations from the same stale snapshot lose an award, or overdraw the ledger.
  - A balance write that fails after its row insert succeeded leaves the balance out of step
    with the rows.
  - The balance check accepts a negative redemption, which credits the customer.
- The customer dashboard's totals equal the ledger's sums, whatever order the list is in. The
  balance card's cash value agrees with the redemption value only at the default rate.
- Per-clinic statistics group every transaction under exactly one label. The group totals add
  up to the total bill and the total row count. The top clinic is a clinic of maximal revenue.
- A configuration save runs exactly one branch. Whether the saved rates are the ones the
  dashboards then load depends on how many configuration rows existed before the save.

## Model

| member | source | states |
|---|---|---|
| Schema.Single | src/components/staff/StaffDashboard.tsx:54-61 | `.single()` yields a row exactly when the query matched one row, and then it is that row |
| Schema.SetBalance | src/components/staff/StaffDashboard.tsx:146-153 | the balance update changes `points_balance` on every row with the id and leaves all other rows and columns as they were |
| Ledger.AsCustomer | src/components/staff/StaffDashboard.tsx:102-104 | the selected customer carries the stored id and balance |
| Ledger.PointsEarned | src/components/staff/StaffDashboard.tsx:130-131 | the points earned are the largest whole number not above bill × points_per_dollar, and are never negative for a non-negative bill and rate |
| Ledger.CashValue | src/components/staff/StaffDashboard.tsx:181 | the cash offset is non-negative for non-negative inputs, and at a positive rate it is positive exactly when the points are |
| Ledger.PointsEarnedMonotonic | src/components/staff/StaffDashboard.tsx:131 | at a non-negative rate a larger bill never earns fewer points |
| Ledger.LoadedRates | src/components/staff/StaffDashboard.tsx:52-65 | a configuration fetch loads rates exactly when the table holds one row, and then it loads that row's two rates |
| Ledger.WorkedExamples | src/components/staff/StaffDashboard.tsx:43 | at the default rates a $100 bill earns 100 points and 60 points are worth $0.60; at 2 points per dollar a $50 bill earns 100 |
| Ledger.AwardWrite | src/components/staff/StaffDashboard.tsx:134-153 | a completed award appends its transaction row, sets the customer's balance to snapshot + points, and leaves the other tables unchanged |
| Ledger.RedeemWrite | src/components/staff/StaffDashboard.tsx:184-203 | a completed redemption appends its redemption row, sets the balance to snapshot − points, and leaves the other tables unchanged |
| Ledger.EarnedAppend | src/components/staff/StaffDashboard.tsx:134-143 | inserting a transaction row raises the ledger credit of its owner by its points and leaves every other customer's credit unchanged |
| Ledger.RedeemedAppend | src/components/staff/StaffDashboard.tsx:184-193 | inserting a redemption row raises the ledger debit of its owner by its points and leaves every other customer's debit unchanged |
| Ledger.AwardKeepsReconciled | src/components/staff/StaffDashboard.tsx:134-161 | starting from a current snapshot and a balance that agrees with the ledger, a completed award keeps the balance in agreement, and the new snapshot is current |
| Ledger.RedeemKeepsReconciled | src/components/staff/StaffDashboard.tsx:184-210 | the same for a completed redemption |
| Ledger.WritesTouchOnlyTheirCustomer | src/components/staff/StaffDashboard.tsx:146-153 | an award or redemption for one customer keeps every other customer's balance in agreement with their ledger |
| Ledger.RedeemStoresNonNegative | src/components/staff/StaffDashboard.tsx:174-177 | a redemption that passes the balance check with a non-negative count stores a non-negative balance |
| Ledger.NegativeRedemptionCredits | src/components/staff/StaffDashboard.tsx:172-177 | a negative point count passes the balance check and raises the stored balance |
| Ledger.StaleSnapshotLosesAward | src/components/staff/StaffDashboard.tsx:146-153 | two awards from one snapshot both record their points, but the stored balance shows only the second one and no longer agrees with the ledger |
| Ledger.StaleSnapshotOverRedeems | src/components/staff/StaffDashboard.tsx:172-203 | two redemptions from one snapshot that each pass the check but together exceed it drive the ledger below zero, while the stored balance stays non-negative |
| Ledger.HalfWrittenAwardDiverges | src/components/staff/StaffDashboard.tsx:134-153 | an inserted transaction whose balance write then fails leaves the balance out of agreement with the ledger |
| Ledger.HalfWrittenRedemptionDiverges | src/components/staff/StaffDashboard.tsx:184-203 | the same for a redemption |
| Json.Lookup | src/components/staff/StaffDashboard.tsx:94-95 | reading a member of a parsed object yields a value exactly when a member of that name exists, and the value is that of the last such member, as `JSON.parse` keeps the last duplicate |
| Json.ParseStringifyRoundTrip | src/components/customer/Dashboard.tsx:70-74 | parsing the text that `JSON.stringify` writes gives back the original value (for values without numbers) |
| Json.ParsedObjectStartsWithBrace | src/components/staff/StaffDashboard.tsx:94 | only text whose first non-blank character is `{` parses to an object |
| Text.TrimEmptyIffBlank | src/components/staff/StaffDashboard.tsx:87 | `trim()` yields the empty string exactly for text made only of white space |
| Text.Utf16Length | src/components/auth/RegisterForm.tsx:37 | `.length` is at least the number of characters, and equals it when every character lies in the Basic Multilingual Plane |
| Text.LexLeTotal | src/components/customer/Dashboard.tsx:93 | the timestamp order is total |
| Text.LexLeTransitive | src/components/customer/Dashboard.tsx:93 | the timestamp order is transitive |
| Text.LexLeAntisymmetric | src/components/customer/Dashboard.tsx:93 | the timestamp order is antisymmetric |
| Text.SelectSpec | src/components/customer/Dashboard.tsx:92-93 | a filtered, newest-first query result is sorted, holds only matching rows, and holds every matching row |
| Text.FilterSpec | src/components/staff/StaffDashboard.tsx:76-77 | a filtered query result holds only rows of the table that match, and holds every matching row |
| Text.FilterFirst | src/components/admin/AdminDashboard.tsx:154 | the first row of a filtered result is the first matching row of the table |
| Folds.SumIntPermutation | src/components/customer/Dashboard.tsx:215 | an integer sum does not depend on the order of the rows |
| Folds.SumRealPermutation | src/components/customer/Dashboard.tsx:217 | a sum of amounts does not depend on the order of the rows |
| Folds.FilterCount | src/components/customer/Dashboard.tsx:201 | the length of a filtered result is the number of matching rows |
| Folds.SumRealFilter | src/components/admin/AdminDashboard.tsx:152 | summing over the filtered rows equals summing over all rows with the non-matching ones counted as zero |
| Staff.SearchKey | src/components/staff/StaffDashboard.tsx:86-100 | blank input searches nothing; text that is not JSON, or JSON other than an object, is searched as typed; an object is searched by `String(userId)` when its `userId` is truthy, and as typed when that member is missing or falsy; text searched as something other than itself starts with `{` |
| Staff.SearchKeyOfCard | src/components/staff/StaffDashboard.tsx:92-100 | text that parses to an object whose `userId` is a string searches that id, or the whole text when the id is empty |
| Staff.Lookup | src/components/staff/StaffDashboard.tsx:102-108 | the lookup finds no customer exactly when no customer row matches, and otherwise finds the first matching row |
| Staff.LookupFindsById | src/components/staff/StaffDashboard.tsx:105 | searching a stored customer's id always finds a customer, and finds that customer when no earlier row matches |
| Staff.TodaysTransactions | src/components/staff/StaffDashboard.tsx:67-84 | without a clinic the list is empty; otherwise it is a permutation of this clinic's rows created since `today` |
| Staff.TodaysTransactionsSpec | src/components/staff/StaffDashboard.tsx:76-78 | today's list is newest first, holds only this clinic's rows created since `today`, and holds all of them |
| Staff.StaffDashboard.constructor | src/components/staff/StaffDashboard.tsx:38-45 | the terminal starts with empty fields, no customer, no rows, the default rates and no message |
| Staff.StaffDashboard.EnterSearchTerm | src/components/staff/StaffDashboard.tsx:257 | typing sets only the search text |
| Staff.StaffDashboard.EnterBillAmount | src/components/staff/StaffDashboard.tsx:322 | typing sets only the bill field |
| Staff.StaffDashboard.EnterPointsToRedeem | src/components/staff/StaffDashboard.tsx:354 | typing sets only the points field |
| Staff.StaffDashboard.FetchSystemConfig | src/components/staff/StaffDashboard.tsx:52-65 | the rates change only when the single configuration row is returned, and then they become its rates |
| Staff.StaffDashboard.FetchTodaysTransactions | src/components/staff/StaffDashboard.tsx:67-84 | the list becomes today's transactions of the staff member's clinic, and empty when the query fails |
| Staff.StaffDashboard.SearchCustomer | src/components/staff/StaffDashboard.tsx:86-123 | blank text changes nothing; otherwise the first matching customer is selected and the message is cleared, or, on no match or a failed query, the selection is cleared and "not found" is shown; loading is off afterwards |
| Staff.StaffDashboard.RecordAward | src/components/staff/StaffDashboard.tsx:130-161 | the award is recorded exactly when both writes succeed; a failed insert changes nothing in the store; a failed balance write leaves the inserted row; a recorded award performs the two writes of `AwardWrite`, credits the selected customer and clears the bill field, and every failure shows the error message |
| Staff.StaffDashboard.AwardPoints | src/components/staff/StaffDashboard.tsx:125-168 | without a customer, a bill or a clinic nothing changes; a failed insert changes nothing in the store; a failed balance write leaves the row inserted; only when both writes succeed do the balance, snapshot, bill field and list change, with an "awarded" message, the list becoming today's transactions or empty when that re-read fails |
| Staff.StaffDashboard.RedeemPoints | src/components/staff/StaffDashboard.tsx:170-217 | without a customer, a points value or a clinic nothing changes; more points than the snapshot holds only reports an insufficient balance; otherwise as for an award, with the row inserted before the balance is written |
| CustomerView.QrPayload | src/components/customer/Dashboard.tsx:70-74 | the card text is a JSON object |
| CustomerView.CardParses | src/components/customer/Dashboard.tsx:70-74 | the card text parses back to the object with `userId`, `email` and `name` it was written from |
| CustomerView.CardUserId | src/components/customer/Dashboard.tsx:71 | the card object's `userId` member is the profile id, as a string |
| CustomerView.QrPayloadResolves | src/components/customer/Dashboard.tsx:70-74 | the staff search reads the profile id from a scanned card, and the whole card text when the id is empty |
| CustomerView.ScannedCardFindsCustomer | src/components/staff/StaffDashboard.tsx:92-108 | scanning a stored customer's card finds a customer, and finds that customer when no earlier row matches its id |
| CustomerView.FetchData | src/components/customer/Dashboard.tsx:83-128 | the lists hold exactly the customer's transactions and redemptions and the running promotions, each empty when its query failed |
| CustomerView.ActivePromotions | src/components/customer/Dashboard.tsx:112-117 | the promotion list is newest first and holds exactly the active promotions that have not ended by now |
| CustomerView.HistoryIsTheCustomers | src/components/customer/Dashboard.tsx:86-103 | both history lists are newest first and hold exactly the customer's own rows |
| CustomerView.PointsRedeemedIsLedgerDebit | src/components/customer/Dashboard.tsx:215 | the "Points Redeemed" card shows the ledger debit of the customer, or 0 when the query failed |
| CustomerView.TotalSavingsIsLedgerCash | src/components/customer/Dashboard.tsx:217 | the savings shown are the cash offsets of all the customer's redemptions |
| CustomerView.SavingsAtOneRate | src/components/customer/Dashboard.tsx:217 | when every redemption used the same rate, the savings are the points redeemed times that rate |
| CustomerView.LifetimeVisitsCountsLedger | src/components/customer/Dashboard.tsx:201 | lifetime visits is the number of the customer's transactions in the store |
| CustomerView.CashValueShown | src/components/customer/Dashboard.tsx:189 | the card shows the balance divided by 100, and 0 without a profile |
| CustomerView.CashShownAgreesOnlyAtDefaultRate | src/components/customer/Dashboard.tsx:189 | the card's cash value equals what the points redeem for exactly when the balance is 0 or the rate is 0.01 |
| CustomerView.ClinicTypeIcon | src/components/customer/Dashboard.tsx:140-151 | aesthetic and dental clinics have their own icons, and every other type shows the hospital icon |
| CustomerView.ShortId | src/components/customer/Dashboard.tsx:252 | the short id is the first eight characters of the id, or the whole of a shorter id |
| Admin.PointsInCirculation | src/components/admin/AdminDashboard.tsx:74-79 | points in circulation are 0 when the query returned nothing |
| Admin.CirculationIsCustomerBalances | src/components/admin/AdminDashboard.tsx:74-79 | points in circulation are the sum of the customers' balances |
| Admin.Label | src/components/admin/AdminDashboard.tsx:101 | every transaction is counted under a non-empty label: its clinic's name when that name is present and non-empty, and 'Unknown' otherwise |
| Admin.TallySpec | src/components/admin/AdminDashboard.tsx:100-108 | one step of the grouping adds the bill and one visit to the group of its label and to no other, creating that group at the end if it is new |
| Admin.ClinicStatsSpec | src/components/admin/AdminDashboard.tsx:100-108 | the groups have distinct names, there is one group for each label that occurs, and each group's revenue and count are the bills and number of rows with its label |
| Admin.ClinicStatsTotals | src/components/admin/AdminDashboard.tsx:100-108 | the group revenues add up to the total bill and the group counts to the number of rows |
| Admin.FirstMax | src/components/admin/AdminDashboard.tsx:110-111 | the stable descending sort puts first the earliest group of largest revenue |
| Admin.TopClinic | src/components/admin/AdminDashboard.tsx:110-111 | the top clinic is 'N/A' without groups, and otherwise names a group of maximal revenue |
| Admin.TopClinicHasLargestRevenue | src/components/admin/AdminDashboard.tsx:92-111 | with transactions, the top clinic is the label of one of them, and no label's bills add up to more; without transactions it is 'N/A' |
| Admin.AverageSpending | src/components/admin/AdminDashboard.tsx:114-115 | the average is 0 without members, and otherwise average × members = total spending |
| Admin.StoreAnalyticsCounts | src/components/admin/AdminDashboard.tsx:65-124 | when every query answers, the record counts the customers, the transaction rows and the redemption rows, and sums the customers' balances |
| Admin.StoreAverageSpending | src/components/admin/AdminDashboard.tsx:92-115 | when every query answers, the average spend is the total of all bills divided by the member count, and 0 without members |
| Admin.ClinicRowsBills | src/components/admin/AdminDashboard.tsx:92-98 | the analytics query carries the bill of every transaction |
| Admin.Enrich | src/components/admin/AdminDashboard.tsx:145-163 | an enriched row keeps the customer's columns; after a failed query it shows no spend, no visits and no last visit; otherwise visits are the number of rows returned and a last visit exists exactly when there are rows |
| Admin.EnrichFromStore | src/components/admin/AdminDashboard.tsx:148-154 | a customer's spend is the sum of their bills and their visits the number of their transactions; the last visit is that of their first transaction in store order |
| Admin.CustomerList | src/components/admin/AdminDashboard.tsx:130-171 | a failed list query gives no rows; otherwise each customer row in newest-first order is enriched from its own query |
| Admin.CustomerListSpec | src/components/admin/AdminDashboard.tsx:130-163 | the list has one entry per customer, newest first, with every customer present; each entry shows that customer's ledger spend and visits, or none when its query failed |
| Admin.UpdateRates | src/components/admin/AdminDashboard.tsx:197-207 | the update rewrites the rates and `updated_at` of the row with the id and leaves every other row as it was |
| Admin.SaveRunsOneBranch | src/components/admin/AdminDashboard.tsx:188-225 | a save whose write fails changes nothing; with exactly one row found it rewrites that row; otherwise it appends one new row |
| Admin.SavedRatesLoaded | src/components/admin/AdminDashboard.tsx:188-225 | after a save over zero rows, or over one row it found, the dashboards load the saved rates; after a save that started from two or more rows, or from one row the lookup missed, they load nothing |
| Admin.WithPromotionField | src/components/admin/AdminDashboard.tsx:413-450 | editing a promotion field changes that field only |
| Admin.AdminDashboard.constructor | src/components/admin/AdminDashboard.tsx:39-57 | the dashboard starts with zero analytics, no customers, the default rates, an empty closed promotion form, loading on and no message |
| Admin.AdminDashboard.FetchAnalytics | src/components/admin/AdminDashboard.tsx:65-128 | the record is built from the five query results, a failed query counting as no data; when all answer it is the store's analytics |
| Admin.AdminDashboard.FetchCustomers | src/components/admin/AdminDashboard.tsx:130-171 | the customer list is replaced by the enriched list, and loading is turned off |
| Admin.AdminDashboard.FetchSystemConfig | src/components/admin/AdminDashboard.tsx:173-186 | the rates change only when the single configuration row is returned |
| Admin.AdminDashboard.EditPointsPerDollar | src/components/admin/AdminDashboard.tsx:493-497 | editing sets points_per_dollar and nothing else |
| Admin.AdminDashboard.EditPointValue | src/components/admin/AdminDashboard.tsx:510-514 | editing sets points_per_dollar_value and nothing else |
| Admin.AdminDashboard.UpdateSystemConfig | src/components/admin/AdminDashboard.tsx:188-225 | the configuration table becomes the result of the save, and the message reports whether the chosen write succeeded |
| Admin.AdminDashboard.EditPromotion | src/components/admin/AdminDashboard.tsx:413-450 | the form changes in the edited field only |
| Admin.AdminDashboard.SetPromotionDialogOpen | src/components/admin/AdminDashboard.tsx:396-398 | the dialog is open exactly when the last request was to open it |
| Admin.AdminDashboard.CreatePromotion | src/components/admin/AdminDashboard.tsx:227-249 | on success one active promotion with the form's fields and empty targeting is appended, the form is reset and the dialog closed; on failure only the message changes |
| Register.WithField | src/components/auth/RegisterForm.tsx:57-59 | an input changes its own field of the form and no other |
| Register.Validate | src/components/auth/RegisterForm.tsx:31-41 | a mismatched confirmation is reported first; a matching password shorter than six UTF-16 units is reported as too short; no error exactly when both checks pass |
| Register.RegisterForm.constructor | src/components/auth/RegisterForm.tsx:14-23 | the form starts empty, not loading, with no error |
| Register.RegisterForm.HandleInputChange | src/components/auth/RegisterForm.tsx:57-59 | an input updates the form through `WithField` |
| Register.RegisterForm.HandleSubmit | src/components/auth/RegisterForm.tsx:26-55 | a form failing a check shows that check's message and calls no sign-up; a valid form calls sign-up with its email, password, name and phone and shows the service's error message, if any; loading is off on every path |
| App.Route | src/App.tsx:7-39 | a spinner exactly while the session loads; then the customer, staff or admin dashboard exactly for a profile with that role; the authentication page for no user, no profile or any other role |

## Left out

- Store queries are modelled by their effect on sequences of rows. The PostgREST filter
  language, joins, HTTP and error codes are not modelled. A failed query or write is a boolean
  parameter, and a failed read yields no data.
- The store's row order is taken to be insertion order. A query without `.order(...)` returns
  rows in that order.
- Ids, `created_at` and `updated_at` are generated by the store. They are parameters
  (`newId`, `now`) and are not checked for uniqueness.
- Concurrency is not modelled. Two terminals are modelled as two operations run one after the
  other from the same snapshot, which is what the stale-snapshot lemmas state. Promise
  interleaving is not modelled, and the `fetchTodaysTransactions()` call that `awardPoints`
  does not await is modelled as finishing at once.
- Floating point is modelled by exact reals. `parseFloat` and `parseInt` of the input fields
  are not modelled: `AwardPoints` takes the parsed amount and `RedeemPoints` the parsed count,
  and NaN is not modelled. `toFixed`, `toLocaleDateString` and the message texts with
  interpolated values are not modelled; each message is a constructor carrying its values.
- Timestamps are strings compared by code point (`Text.LexLe`). This order is chronological
  only when all timestamps share one ISO-8601 format. `new Date().toISOString()` and the
  `today` date prefix are parameters.
- Staff.Matches: the case-insensitive `ilike` substring match on email, name and phone
  number is an opaque predicate `like`, passed in as a parameter. Only the exact `id.eq`
  alternative is spelled out. A search key containing characters that change the meaning of
  the `.or(...)` filter text (commas, parentheses) is not modelled.
- Json.ParseStringifyRoundTrip: is proved only for values without numbers. The loyalty card
  holds only strings, which is the case used.
- Json.ToJsString: a number converts to its lexeme as written, not to JavaScript's canonical
  number text (`1e2` gives `1e2`, not `100`).
- Json.Parse: rejects `\u` escapes that denote UTF-16 surrogates, which `JSON.parse` accepts.
  Such text is searched as typed.
- Json.Truthy: a number literal counts as zero only when its digits before the exponent are all
  0. A literal too small for a double, such as `1e-400`, reads as 0 in JavaScript and is falsy,
  so the code searches the text as typed. The model calls it truthy and searches its lexeme.
- CustomerView.ShortId: counts characters, whereas `slice` counts UTF-16 units. The two differ
  only for ids outside the Basic Multilingual Plane, and the ids are UUIDs.
- CustomerView.FetchData: the clinic directory is kept in store order rather than ordered by
  name. The joined clinic columns of the history rows are not modelled. An exception thrown
  during the fetch is modelled as a failure of that query, leaving its list empty, rather than
  leaving the earlier lists in place.
- Admin.ClinicStats: groups are kept in the order their first row appears. JavaScript puts
  integer-like property names (a clinic named "12") first. This changes which group wins a tie
  for the top revenue.
  The reduce starts from a plain `{}`, so the test `!acc[clinicName]` finds the members every
  object inherits. A clinic named `constructor`, `toString`, `valueOf`, `hasOwnProperty`,
  `__proto__` (or another `Object.prototype` member) never gets an entry of its own: its figures
  land on the inherited member, and `Object.entries` does not list it. The model gives such a
  clinic a group like any other, which `TopClinic` can report.
- Admin.TopClinic: when the winning group's label is empty it reports 'N/A', as the code
  does. This model cannot produce an empty label, because `Label` substitutes 'Unknown'.
- The staff list of today's transactions and the admin customer list fetch joined columns
  (`users (name, email)`) that the model does not carry.
- Authentication (`useAuth`, including its fallback to a default profile name), the login form
  and the authentication page are not part of this model. `App.Route` takes the session state
  and `RegisterForm.HandleSubmit` takes the service's reply as parameters. `showPassword` is
  presentation state and is left out.
- Rendering (JSX, styling, the QR image produced by `QRCode.toDataURL`, the dialogs'
  presentation) is left out. The icons are kept as their code points.
