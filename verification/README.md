# Perfume dashboard: record rules and mock sign-in

A model of the logic inside a small client dashboard for a custom-perfume
business. Clients sign in to see their own payments and orders. The
administrator sees every client, payment and order, plus four statistics
cards. The model covers:

- the records (`Client`, `Payment`, `Order`, `User`). Each status or role is a
  datatype, so `Payment.status` is exactly one of paid, pending or overdue,
  and the same holds for the order status and the user role. Every optional
  field is an independent `Option<string>`. The types tie no optional field to
  a status: a paid payment need not carry `paidDate`, and an order's
  `completedAt` is not tied to `completed`;
- the admin statistics: client count, revenue from paid payments, the overdue
  amount and the active-order count. It also covers the owner lookup that
  tolerates a dangling `clientId`, the badge colours and the "Mark Paid" rule;
- the payment history: the mock PromptPay QR payload, status colour and label,
  the overdue total and alert, and the per-row QR for pending payments;
- the order history: status colour, the reorder, completed-date and notes
  rules, one row per order, and the empty state;
- the dashboard page: nothing without a user, everything for an admin, and a
  client's own records in their original order;
- the mock sign-in provider, as a class holding `user` and `isLoading`.

Amounts are whole satang (hundredths of a baht). `toFixed(2)` becomes exact
integer formatting (`Decimal.Fixed2`) with a parser beside it. The parser
proves that the payload builder loses nothing: `PayloadRoundTrip` reads the
amount and the reference back out of every payload.

The modules follow the source files: `Types` (src/types/index.ts),
`AdminDashboard`, `PaymentHistory`, `OrderHistory`, `Dashboard` and
`AuthContext`. Three helper modules sit beside them. `ArrayOps` gives the
semantics of JavaScript's `filter` and `find`. `Amounts` holds the
filter-then-sum pipeline that two components share. `Decimal` renders an
amount with two decimals.

The model follows the code in these details:

- The payload has the literal `6304` between the amount and the reference.
- Badges use colours (green, yellow, red, blue), not abstract categories.
- `paidDate` is not forced to be present exactly when a payment is paid.
- A row shows a completed date, notes or a paid date when the field is
  JavaScript-truthy. So an empty string hides it, the same as an absent field.

## Model

| member | source | states |
|---|---|---|
| `ArrayOps.Filter` | src/pages/Dashboard.tsx:70-71 | `filter` keeps only elements that pass, as an order-preserving subsequence of the input, never longer than it |
| `ArrayOps.FilterCount` | src/pages/Dashboard.tsx:70-71 | every element that passes is kept exactly as often as it occurs; every other element is dropped |
| `ArrayOps.FilterMembership` | src/pages/Dashboard.tsx:70-71 | an element is in the result iff it is in the input and passes |
| `ArrayOps.FilterAppend` | src/components/AdminDashboard.tsx:29-31 | filtering distributes over concatenation |
| `ArrayOps.FilterIdempotent` | src/pages/Dashboard.tsx:70-71 | filtering twice with the same predicate equals filtering once |
| `ArrayOps.FilterComplementLength` | src/components/AdminDashboard.tsx:31 | a predicate and its negation split a list: the two counts add up to its length |
| `ArrayOps.FilterKeepsAll` | src/pages/Dashboard.tsx:70-71 | when every element passes, the list comes back unchanged |
| `ArrayOps.FilterDropsAll` | src/pages/Dashboard.tsx:70-71 | when no element passes, the result is empty |
| `ArrayOps.FindIndex` | src/components/AdminDashboard.tsx:120 | gives the first index whose element passes, or none exactly when no element passes |
| `ArrayOps.Find` | src/components/AdminDashboard.tsx:120 | gives the first element that passes, or `undefined` (None) exactly when none does; never fails |
| `Amounts.SumAmounts` | src/components/AdminDashboard.tsx:29 | the `reduce` sum from 0 is 0 for no payments and never less than any single amount in the list |
| `Amounts.AmountWithStatus` | src/components/AdminDashboard.tsx:29-30 | a filter-then-sum status total is 0 for no payments and never more than the sum of all amounts |
| `Amounts.SumAmountsAppend` | src/components/AdminDashboard.tsx:29 | the `reduce` sum of amounts is additive over concatenation |
| `Amounts.AmountWithStatusCons` | src/components/AdminDashboard.tsx:29-30 | the status total is the sum, payment by payment, of the amounts whose status matches; the empty list sums to 0 |
| `Amounts.AmountWithStatusAppend` | src/components/AdminDashboard.tsx:29-30 | a status total over two joined lists is the sum of the two totals |
| `Amounts.StatusTotalsPartition` | src/components/AdminDashboard.tsx:29-30 | the paid, pending and overdue totals add up to the whole amount, so pending money counts toward neither revenue nor overdue |
| `Amounts.AmountWithStatusPositive` | src/components/PaymentHistory.tsx:49-50 | a status total is positive iff some payment with that status has a positive amount |
| `AdminDashboard.TotalRevenue` | src/components/AdminDashboard.tsx:29 | revenue never exceeds the sum of all amounts, and is positive iff some paid payment has a positive amount |
| `AdminDashboard.OverdueAmount` | src/components/AdminDashboard.tsx:30 | revenue plus the overdue amount never exceeds the sum of all amounts; the overdue amount is positive iff some overdue payment has a positive amount |
| `AdminDashboard.ActiveOrders` | src/components/AdminDashboard.tsx:31 | the active-order count is at most the number of orders; it is zero iff no order is pending or in progress |
| `AdminDashboard.AdminStats` | src/components/AdminDashboard.tsx:29-40 | total clients is `clients.length`; the revenue, overdue and active-order cards are exactly `TotalRevenue`, `OverdueAmount` and `ActiveOrders`; revenue plus overdue never exceeds the sum of all amounts; no payments give zero revenue and zero overdue |
| `AdminDashboard.ActiveOrdersPartition` | src/components/AdminDashboard.tsx:31 | active orders plus finished (completed or cancelled) orders equal the number of orders |
| `AdminDashboard.StatsAppend` | src/components/AdminDashboard.tsx:29-31 | revenue, overdue amount and active count are additive over concatenated lists |
| `AdminDashboard.OwnerOf` | src/components/AdminDashboard.tsx:120 | the owner is the first client whose id equals the record's `clientId`, or none exactly when no client matches |
| `AdminDashboard.PaymentBadge` | src/components/AdminDashboard.tsx:124 | the inline payment badge (paid green, pending yellow, otherwise red) is the colour the payment history's `getStatusColor` gives |
| `AdminDashboard.OrderBadge` | src/components/AdminDashboard.tsx:157 | the inline order badge is the colour the order history's `getStatusColor` gives |
| `AdminDashboard.ShowMarkPaid` | src/components/AdminDashboard.tsx:134 | "Mark Paid" is offered iff the payment is pending or overdue |
| `AdminDashboard.OwnerName` | src/components/AdminDashboard.tsx:120 | the name shown is that of the first client whose id equals the record's `clientId`; nothing is shown iff no client matches |
| `AdminDashboard.AdminPaymentRows` | src/components/AdminDashboard.tsx:119-138 | one row per payment in input order, each with its payment's badge colour and owner name; "Mark Paid" is shown iff the status is not paid; no owner is shown iff no client matches |
| `AdminDashboard.AdminOrderRows` | src/components/AdminDashboard.tsx:152-171 | one row per order in input order, each with its order's badge colour and owner name; no owner is shown iff no client matches |
| `Decimal.NatToDecimal` | src/components/PaymentHistory.tsx:17 | the integer part of `toFixed` is a non-empty string of digits with no leading zero |
| `Decimal.DecimalRoundTrip` | src/components/PaymentHistory.tsx:17 | reading the decimal digits of `n` back gives `n` |
| `Decimal.Fixed2` | src/components/PaymentHistory.tsx:17 | `toFixed(2)` gives the baht digits, one point, then exactly two digits |
| `Decimal.Fixed2RoundTrip` | src/components/PaymentHistory.tsx:17 | every two-decimal rendering parses back to its amount |
| `Decimal.Fixed2Injective` | src/components/PaymentHistory.tsx:17 | two different amounts never render alike |
| `PaymentHistory.PromptPayPayload` | src/components/PaymentHistory.tsx:16-18 | the payload starts with the fixed `000201…TH630` prefix and ends with the reference |
| `PaymentHistory.PayloadRoundTrip` | src/components/PaymentHistory.tsx:16-18 | the amount and the reference can be decoded back from every payload |
| `PaymentHistory.PayloadInjective` | src/components/PaymentHistory.tsx:16-18 | equal payloads come only from equal (amount, reference) pairs, so a QR code identifies its payment |
| `PaymentHistory.PayloadAmountSegment` | src/components/PaymentHistory.tsx:17 | right after the prefix comes the amount with exactly two digits after the point; then `6304`, then the reference |
| `PaymentHistory.PaymentStatusColor` | src/components/PaymentHistory.tsx:23-30 | paid→green, pending→yellow, overdue→red, one to one; the grey default is unreachable |
| `PaymentHistory.PaymentStatusText` | src/components/PaymentHistory.tsx:32-39 | each status gets its own translation key |
| `PaymentHistory.TotalOverdue` | src/components/PaymentHistory.tsx:49-50 | the overdue total never exceeds the sum of all amounts, and is 0 when no overdue payment is owed money |
| `PaymentHistory.OverdueAlert` | src/components/PaymentHistory.tsx:49-72 | the alert is shown iff some overdue payment has a positive amount; its QR decodes to the overdue total and the reference `OVERDUE<now>` |
| `PaymentHistory.PaymentQr` | src/components/PaymentHistory.tsx:110-117 | a row has a QR code iff its payment is pending; the code decodes to the payment's amount and the reference `PAY` + id |
| `PaymentHistory.PaymentRowOf` | src/components/PaymentHistory.tsx:95-123 | a row carries its payment's id, status colour and label; the paid date is shown iff present and non-empty; a QR code iff pending, decoding to the payment's amount and `PAY` + id |
| `PaymentHistory.PaymentRows` | src/components/PaymentHistory.tsx:94-124 | one row per payment in input order, each with its payment's QR code (`PaymentQr`), status colour and label; QR iff pending; paid date shown iff present and non-empty |
| `OrderHistory.OrderStatusColor` | src/components/OrderHistory.tsx:17-25 | completed→green, in-progress→blue, pending→yellow, cancelled→red, one to one |
| `OrderHistory.OrderRowOf` | src/components/OrderHistory.tsx:50-74 | a row carries its order's id and status colour; reorder is shown iff the order is completed and a handler is given; completed date and notes are shown iff present and non-empty |
| `OrderHistory.OrderRows` | src/components/OrderHistory.tsx:45-77 | one row per order, in input order, each the row of its own order: its status colour, the reorder rule, and the completed date and notes shown iff JavaScript-truthy |
| `OrderHistory.ShowEmptyState` | src/components/OrderHistory.tsx:79-83 | the empty-state message is shown iff no order rows are rendered |
| `Dashboard.ClientPayments` | src/pages/Dashboard.tsx:70 | `clientPayments` is an order-preserving subsequence; every kept payment matches the user's client id; every matching payment is kept |
| `Dashboard.ClientOrders` | src/pages/Dashboard.tsx:71 | the same filter contract over orders |
| `Dashboard.ClientScopeCounts` | src/pages/Dashboard.tsx:70-71 | a record of the client occurs in the scoped list exactly as often as in the full list; a record of anyone else does not occur |
| `Dashboard.ClientScopeIdempotent` | src/pages/Dashboard.tsx:70-71 | scoping twice to the same client equals scoping once |
| `Dashboard.UnknownClientSeesNothing` | src/pages/Dashboard.tsx:70-71 | a client user with no client id, or with one no record carries, gets empty lists |
| `Dashboard.DashboardView` | src/pages/Dashboard.tsx:40-71 | no user gives nothing; an admin gets the full, unfiltered lists; a client gets exactly its own records, in order |
| `Dashboard.OverdueSplitsByClient` | src/components/AdminDashboard.tsx:30 | with distinct client ids and every payment owned by a listed client, the admin overdue card equals the sum over clients of the overdue total each client's payment history shows (PaymentHistory.tsx:49-50) |
| `Dashboard.ReorderTarget` | src/pages/Dashboard.tsx:49-50 | `handleReorder` finds the first order with the given id, or none when absent |
| `Dashboard.ReorderMessage` | src/pages/Dashboard.tsx:49-54 | the toast text is `Reordering: ` plus the found order's description, or `undefined` when no order matches |
| `Dashboard.SampleAdminStats` | src/pages/Dashboard.tsx:14-33 | on the sample records the admin sees 3 clients, 6000 baht revenue, 2500 baht overdue and 2 active orders |
| `Dashboard.SampleClientView` | src/pages/Dashboard.tsx:14-33 | on the sample records client1 sees pay1 to pay3 and ord1 to ord2 |
| `AuthContext.Authenticate` | src/contexts/AuthContext.tsx:32-47 | sign-in succeeds iff the pair is exactly one of the three fixed credential pairs; a signed-in user is a mock user, and a client-role one has a client id |
| `AuthContext.AuthenticateInjective` | src/contexts/AuthContext.tsx:32-47 | two credential pairs that sign in the same user are the same pair |
| `AuthContext.AuthenticateAccounts` | src/contexts/AuthContext.tsx:15-43 | admin/admin signs in the admin; the two client pairs sign in the users with `clientId` client1 and client2 |
| `AuthContext.AuthProvider.constructor` | src/contexts/AuthContext.tsx:22-23 | starts with no user and loading off |
| `AuthContext.AuthProvider.Login` | src/contexts/AuthContext.tsx:25-48 | returns true iff the credentials match; on success the user is the matching account, on failure the previous user is kept; loading is off on every return |
| `AuthContext.AuthProvider.Logout` | src/contexts/AuthContext.tsx:50-52 | clears the user and changes nothing else |

## Left out

- Data fetching (src/hooks/): remote queries, caching and the `Number(...)` coercion of stored values are foreign I/O. The model takes the lists as parameters.
- Non-numeric (NaN) amounts are not modelled: amounts are `nat`, so the `NaN` that `Number(...)` can produce, and that the components would render as "NaN" without an error, cannot be written down.
- Floating point: amounts are whole satang. Binary rounding in `toFixed`, negative amounts and the exponent notation JavaScript uses for huge numbers are not modelled.
- Locale formatting (`toLocaleString('th-TH')`, `toLocaleDateString`) is library code. Dates stay uninterpreted strings.
- The translation table (src/lib/i18n.ts) is not part of this model. `PaymentStatusText` returns the key, not the text.
- PaymentHistory.OverdueAlert: the reference holds `Date.now()`, which becomes the parameter `nowMillis`. So the overdue QR code changes between renders, even though the builder is deterministic.
- QR rendering and real EMVCo/PromptPay encoding, including the CRC-16 checksum, are left out. The source only mocks the payload.
- AuthContext.AuthProvider.Login: the one-second delay and React's state batching are left out. The call is one atomic transition, and `isLoading` is true only inside it.
- The toast side effects of `handlePaymentUpdate` and `handleReorder` are UI. Only the reorder lookup and its message text are modelled.
- Rendering, styling, tabs, navigation, the login form and the language toggle are markup with no logic beyond what is modelled above.
- The client card's contact line (AdminDashboard.tsx:95-97) is only markup joined from optional fields. Its truthiness rule is the one `Types.Truthy` states.
