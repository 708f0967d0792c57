# Logistics dashboard: order intake, billing and panel state rules

This project models the sequential logic under the Swing panels of a logistics
management desktop application: how a client's order is validated, inserted
as `pending` and billed (100 per unit plus a flat 500 VIP surcharge), how its
status is overwritten, which orders each panel lists, and the small state
machines behind the panels' buttons: the tracking card's Track Order / View
OTP buttons, the admin's "Generate Bill" action, which stays on the card until Refresh
rebuilds the cards, and the order
history's Pay / View Bill toggle. It also covers the `formatStatus` and
`formatHourLabel` string helpers.

The relational store is a value: `OrderStore.Store` holds the `orders` rows
in a `map<int, Order>`, the `bills` rows in insertion order, and the two
auto-increment counters. Each SQL statement is a pure function from one store
to the next. A statement that raises `SQLException` appears as a boolean
parameter in the order and bill INSERTs of createOrder, in `updateOrderStatus`,
in the admin panel's listing, row reading, bill-status lookup and bill save,
and in the View OTP lookup. `OrderStore.Valid` is the store invariant: keys
stay below their counters, every bill belongs to an existing order, an order
has at most one bill, and every bill is priced from its order. Every update
reachable through createOrder, updateOrderStatus and saveBillToDatabase is
proved to preserve it; `generateBill` called on an order that already has a
bill would add a second one.

Modules: `Common` (nullable values, IllegalArgumentException results),
`Text` (Java `trim`, ASCII case mapping, `equalsIgnoreCase`, `Integer.toString`),
`StatusFormat`, `OrderStore`, `ClientPortal`, `TrackOrderPanel`,
`CompletedOrdersAdmin`, `OrderHistoryPanel`, `AdminDashboard`.

Facts about the code that shape the model:
- The bill row is inserted when the order is created, not when it is delivered.
- `updateOrderStatus` accepts any non-blank string, with no transition table.
- The only payment is the order-history panel's simulated one. It sets a panel
  flag and writes nothing to the store.
- There is no driver assignment, delivery-code check or partial payment in the
  modelled code.
- The admin panel only repaints after saving a bill: the card on screen keeps
  its "Generate Bill" button until Refresh rebuilds the cards, and a second
  click saves again.

Quantities are Dafny `real`: exact, with no rounding and no NaN. Statuses are
compared by the tracking card's `switch`, by `equalsIgnoreCase` on the admin
cards' payment status, and by SQL `=` and `IN` in the queries; the model
compares them exactly (the SQL collation is under "## Left out").

## Model

| member | source | states |
|---|---|---|
| ClientPortal.ValidateOrderInput | src/LogisticsManagementSystem/ClientPortal.java:77-94 | input is accepted iff clientId > 0, pickup, delivery and item type are non-null with a character above U+0020, and quantity > 0; otherwise the first failing check in source order is reported |
| ClientPortal.HasTextIsNotNullOrBlank | src/LogisticsManagementSystem/ClientPortal.java:82-90 | `s == null \|\| s.trim().isEmpty()` is false exactly when s is present and holds a non-trimmable character |
| ClientPortal.GenerateBill | src/LogisticsManagementSystem/ClientPortal.java:179-209 | succeeds iff the id is positive, the order exists and the INSERT does not throw; then exactly one bill row is appended with amount 100 × quantity, VIP charges 500 or 0, and total their sum; on failure nothing changes |
| ClientPortal.CreateOrder | src/LogisticsManagementSystem/ClientPortal.java:29-72 | rejected input or a failed order INSERT gives -1 and an unchanged store; otherwise the new id is the next key, the row holds the arguments verbatim with status "pending", the other orders are untouched, and one bill is appended unless its INSERT failed |
| ClientPortal.InsertOrder | src/LogisticsManagementSystem/ClientPortal.java:39-59 | the accepted path: the row goes in under the next key and, unless the bill INSERT fails, exactly one bill priced from that row follows under the next bill key |
| ClientPortal.InsertOrderPreservesValid | src/LogisticsManagementSystem/ClientPortal.java:39-59 | on a valid store the new key is positive and unused, and the store with the order and its bill is still valid |
| ClientPortal.CreateOrderPreservesValid | src/LogisticsManagementSystem/ClientPortal.java:29-72 | createOrder keeps the store invariant; the returned id is -1 or a fresh positive key |
| ClientPortal.CreateOrderIdIgnoresBillFailure | src/LogisticsManagementSystem/ClientPortal.java:53-59 | the same new id is returned whether or not the bill INSERT fails; the failure shows only as a missing bill row |
| ClientPortal.CreatedOrderBill | src/LogisticsManagementSystem/ClientPortal.java:53-59 | after createOrder, getBillDetails finds the new order's bill iff its INSERT succeeded, with total 100 × quantity + (500 if VIP), on an order still "pending" |
| ClientPortal.UpdateOrderStatus | src/LogisticsManagementSystem/ClientPortal.java:261-288 | succeeds iff id > 0, the status is non-null and non-blank, the row exists and the UPDATE does not raise SQLException; on success only that order's status changes, to the given string; otherwise nothing changes |
| ClientPortal.UpdateOrderStatusPreservesValid | src/LogisticsManagementSystem/ClientPortal.java:272-283 | a status update keeps the store invariant |
| ClientPortal.UpdateOrderStatusHasNoTransitionCheck | src/LogisticsManagementSystem/ClientPortal.java:272-283 | a delivered order accepts any non-blank status, including a return to "pending" |
| ClientPortal.UpdateToCurrentStatusChangesNothing | src/LogisticsManagementSystem/ClientPortal.java:272-283 | writing the status an order already has leaves the store as it is |
| ClientPortal.UpdateOrderStatusIdempotent | src/LogisticsManagementSystem/ClientPortal.java:272-283 | after an update whose UPDATE went through, repeating it (failing or not) leaves the store as the first update left it |
| ClientPortal.GetActiveOrders | src/LogisticsManagementSystem/ClientPortal.java:100-111 | throws iff clientId ≤ 0; otherwise returns exactly the client's orders whose status is pending, assigned or in_transit |
| ClientPortal.GetOrderHistory | src/LogisticsManagementSystem/ClientPortal.java:139-147 | throws iff clientId ≤ 0; otherwise returns exactly the client's orders |
| ClientPortal.ActiveOrdersWithinHistory | src/LogisticsManagementSystem/ClientPortal.java:105-147 | active orders are a subset of the history; the rest of the history has non-active statuses |
| ClientPortal.CreatedOrderIsActive | src/LogisticsManagementSystem/ClientPortal.java:31-33 | a newly created order is among its client's active orders |
| ClientPortal.DeliveredOrderLeavesActive | src/LogisticsManagementSystem/ClientPortal.java:105-111 | setting status "delivered" drops the order from the active list and keeps it in the history |
| ClientPortal.FirstBill | src/LogisticsManagementSystem/ClientPortal.java:225-232 | finds a bill row of the order iff one exists, and the one it finds belongs to that order |
| ClientPortal.GetBillDetails | src/LogisticsManagementSystem/ClientPortal.java:216-255 | throws iff orderId ≤ 0; null iff no bill row joins an existing order; otherwise a bill of that order with its order row |
| ClientPortal.BillDetailsArePriced | src/LogisticsManagementSystem/ClientPortal.java:185-191 | in a valid store the bill found has amount 100 × quantity, VIP charges 500 or 0, and total their sum |
| OrderStore.ChargesFor | src/LogisticsManagementSystem/ClientPortal.java:185-191 | the total is the base amount plus the VIP charge; the VIP charge is 500 exactly for a VIP order and 0 otherwise; the base is 100 × quantity, so a positive quantity costs more than the surcharge alone |
| ClientPortal.ChargeExamples | src/LogisticsManagementSystem/ClientPortal.java:185-191 | quantity 2 VIP is billed 200 + 500 = 700; quantity 1 non-VIP is billed 100 + 0 = 100 |
| OrderStore.RepricingFreeUpdateKeepsValid | src/LogisticsManagementSystem/completedOrdersAdmin.java:370-377 | an update that leaves every quantity and VIP flag as it was keeps every bill correctly priced |
| Text.TrimEmptyIffBlank | src/LogisticsManagementSystem/TrackOrderPanel.java:445 | `trim()` is empty iff every character is at most U+0020; otherwise it is a slice of the input with non-trimmable ends |
| Text.EqualsIgnoreCaseIsUpperEquality | src/LogisticsManagementSystem/completedOrdersAdmin.java:283-284 | Java's three-way per-character equalsIgnoreCase test equals comparing the ASCII upper-cased strings |
| Text.DecimalRoundTrip | src/LogisticsManagementSystem/AdminPanel.java:694 | the decimal text of a non-negative int reads back to the same number |
| StatusFormat.FormatStatus | src/LogisticsManagementSystem/OrderHistoryPanel.java:270-273 | on non-empty input: same length, first character upper-cased, every later character lower-cased with '_' turned into a space |
| StatusFormat.ReplaceChar | src/LogisticsManagementSystem/OrderHistoryPanel.java:272 | `replace('_', ' ')` keeps the length and swaps exactly the matching characters |
| StatusFormat.FormattedTailIsLowerWithoutUnderscore | src/LogisticsManagementSystem/TrackOrderPanel.java:479-482 | after the first character the output has no underscore and no upper-case letter |
| StatusFormat.FormatStatusIdempotent | src/LogisticsManagementSystem/completedOrdersAdmin.java:417-420 | formatting a formatted status changes nothing |
| StatusFormat.FormatInTransit | src/LogisticsManagementSystem/OrderHistoryPanel.java:270-273 | "in_transit" is displayed as "In transit" |
| StatusFormat.FormatDelivered | src/LogisticsManagementSystem/OrderHistoryPanel.java:156 | a delivered order's status is displayed as "Delivered" |
| TrackOrderPanel.UpdateStatusBasedOnOrderStatus | src/LogisticsManagementSystem/TrackOrderPanel.java:290-314 | a status with no case leaves the card as it was; for pending, assigned, accepted, in_transit and rejected the two buttons agree, show iff the status is trackable, and the text reads "Rejected" iff the status is rejected |
| TrackOrderPanel.CasedStatusIgnoresPreviousCard | src/LogisticsManagementSystem/TrackOrderPanel.java:290-314 | for a status with a case the result does not depend on the card it is applied to |
| TrackOrderPanel.TrackingCard | src/LogisticsManagementSystem/TrackOrderPanel.java:290-314 | the two buttons always have equal visibility and are visible iff the status is assigned, accepted or in_transit; the text is "Pending" for any status with no case; "Rejected" and "In Transit" for exactly their status |
| TrackOrderPanel.TrackingCardTable | src/LogisticsManagementSystem/TrackOrderPanel.java:232-314 | pending → Pending, hidden; assigned and accepted → Accepted, shown; in_transit → In Transit, shown; rejected → Rejected, hidden; any other status → the initial state |
| TrackOrderPanel.BuildOrderCard | src/LogisticsManagementSystem/TrackOrderPanel.java:266-285 | a card shows View Bill iff the order is completed, and then keeps the "Pending" text it was built with; otherwise its Track Order and View OTP buttons agree and show iff the status is assigned, accepted or in_transit, and it reads "Rejected" iff the status is rejected and "Pending" for any other status without tracking |
| TrackOrderPanel.LoadCurrentOrders | src/LogisticsManagementSystem/TrackOrderPanel.java:146-176 | one tracking card per active order of the client; no loaded card reads "Rejected", and the buttons show iff the status is not "pending" |
| TrackOrderPanel.LoadedCardsAreActiveOrders | src/LogisticsManagementSystem/TrackOrderPanel.java:148-154 | the panel's cards are exactly the orders getActiveOrders lists |
| TrackOrderPanel.ViewOtp | src/LogisticsManagementSystem/TrackOrderPanel.java:434-478 | "no OTP" iff the order exists and its OTP is null or blank after trim; the no-OTP message and the shown OTP both carry the order's status; a missing order and a failed query are reported as such |
| CompletedOrdersAdmin.ListedOrders | src/LogisticsManagementSystem/completedOrdersAdmin.java:171-177 | exactly the orders whose status is "delivered" are listed |
| CompletedOrdersAdmin.CheckBillGenerationStatus | src/LogisticsManagementSystem/completedOrdersAdmin.java:398-415 | true only when the row exists with bill_generated set; false when the row is missing or the lookup fails |
| CompletedOrdersAdmin.MatchesWordIgnoringCase | src/LogisticsManagementSystem/completedOrdersAdmin.java:305 | equalsIgnoreCase against an upper-case word holds iff the upper-cased input equals the word |
| CompletedOrdersAdmin.BuildAdminCard | src/LogisticsManagementSystem/completedOrdersAdmin.java:280-314 | payment is styled pending iff the status is "PENDING" ignoring case; Generate Bill is offered iff the status is "COMPLETED" ignoring case and the bill check is false; the two never coincide |
| CompletedOrdersAdmin.LoadCompletedOrders | src/LogisticsManagementSystem/completedOrdersAdmin.java:168-206 | a failed listing query leaves the panel empty; otherwise one card per delivered order whose row was read; a card offers Generate Bill iff its order is delivered with payment "COMPLETED" ignoring case and either has no saved bill or its bill-status lookup failed; payment is styled pending iff "PENDING" ignoring case |
| CompletedOrdersAdmin.SaveBillToDatabase | src/LogisticsManagementSystem/completedOrdersAdmin.java:370-377 | sets bill_generated and bill_data on that order only; every other column, order and bill is unchanged; a missing id or a failed UPDATE changes nothing |
| CompletedOrdersAdmin.SaveBillPreservesValid | src/LogisticsManagementSystem/completedOrdersAdmin.java:370-377 | saving a bill keeps the store invariant |
| CompletedOrdersAdmin.SecondSaveOnlyRewritesBillData | src/LogisticsManagementSystem/completedOrdersAdmin.java:370-377 | saving twice leaves the store exactly as a single save of the second text does; only bill_data differs from the first save |
| CompletedOrdersAdmin.CardBuiltAfterSaveOmitsGenerateBill | src/LogisticsManagementSystem/completedOrdersAdmin.java:305-313 | a card built after a successful save (on load or Refresh) does not offer Generate Bill while the lookup succeeds |
| CompletedOrdersAdmin.GenerateBillGate | src/LogisticsManagementSystem/completedOrdersAdmin.java:305-313 | a completed order without a bill gets a card offering Generate Bill, and a card built after a successful save does not |
| CompletedOrdersAdmin.FailedLookupReoffersGenerateBill | src/LogisticsManagementSystem/completedOrdersAdmin.java:398-405 | when the bill-status lookup fails, a completed order is offered Generate Bill even after its bill was saved |
| CompletedOrdersAdmin.SaveBillLeavesOtherCards | src/LogisticsManagementSystem/completedOrdersAdmin.java:370-377 | saving one order's bill leaves every other order's card unchanged |
| CompletedOrdersAdmin.GenerateBill | src/LogisticsManagementSystem/completedOrdersAdmin.java:334-350 | reports success iff the UPDATE does not raise SQLException; the cards on screen are not rebuilt; on success an existing order holds the bill text with bill_generated set; a failure changes nothing |
| CompletedOrdersAdmin.Refresh | src/LogisticsManagementSystem/completedOrdersAdmin.java:135-166 | the cards are rebuilt from the unchanged store: one per delivered order whose row was read |
| CompletedOrdersAdmin.GenerateBillStaysOfferedUntilRefresh | src/LogisticsManagementSystem/completedOrdersAdmin.java:334-343 | after a successful save the card on screen still offers Generate Bill; a Refresh whose lookups succeed withdraws it |
| CompletedOrdersAdmin.SuccessReportedWithoutRow | src/LogisticsManagementSystem/completedOrdersAdmin.java:337-340 | for an id with no row, nothing is saved and success is still reported |
| OrderHistoryPanel.ChooseAction | src/LogisticsManagementSystem/OrderHistoryPanel.java:184-196 | Pay iff completed and not paid; View Bill iff completed and paid; Track Order iff not completed |
| OrderHistoryPanel.HistoryQueryIsDeliveredHistory | src/LogisticsManagementSystem/OrderHistoryPanel.java:81-87 | the history query's rows are exactly the client's orders from getOrderHistory whose status is "delivered" |
| OrderHistoryPanel.AddCard | src/LogisticsManagementSystem/OrderHistoryPanel.java:131-199 | the earlier cards stay; the new card shows the formatted status; it shows Track Order iff not completed and View Bill iff completed while the flag is set; a completed card becomes the panel's actionButton, otherwise actionButton is kept |
| OrderHistoryPanel.AddCompletedCards | src/LogisticsManagementSystem/OrderHistoryPanel.java:93-108 | one card per row in row order, all with the same action for the flag; actionButton ends on the last card |
| OrderHistoryPanel.LoadOrderHistory | src/LogisticsManagementSystem/OrderHistoryPanel.java:79-117 | the cards are cleared and rebuilt one per query row, in row order, and the flag is unchanged |
| OrderHistoryPanel.LoadedCardsShareOneAction | src/LogisticsManagementSystem/OrderHistoryPanel.java:85-105 | every loaded card is completed, so none shows Track Order; all show View Bill iff the flag is set, and all read "Delivered" |
| OrderHistoryPanel.OpenedPanelOffersPay | src/LogisticsManagementSystem/OrderHistoryPanel.java:129 | with the flag at its initial false every loaded card shows Pay |
| OrderHistoryPanel.HandlePaymentDialog | src/LogisticsManagementSystem/OrderHistoryPanel.java:234-252 | as written: Cancel changes nothing; Pay sets the flag and turns the actionButton card, whichever was clicked, to View Bill; no other card changes |
| OrderHistoryPanel.PayRelabelsWrongCard | src/LogisticsManagementSystem/OrderHistoryPanel.java:244-246 | with two delivered orders, paying for the first leaves it on Pay and turns the second to View Bill |
| OrderHistoryPanel.HandlePaymentDialogForCard | src/LogisticsManagementSystem/OrderHistoryPanel.java:234-252 | corrected: Pay sets the flag and turns the clicked card to View Bill, leaving every other card unchanged; Cancel changes nothing |
| OrderHistoryPanel.PaidPanelBuildsViewBill | src/LogisticsManagementSystem/OrderHistoryPanel.java:184-191 | while the flag is set, every card a load builds shows View Bill |
| OrderHistoryPanel.PaidStaysPaid | src/LogisticsManagementSystem/OrderHistoryPanel.java:237 | no dialog outcome resets the flag |
| AdminDashboard.ClockHour | src/LogisticsManagementSystem/AdminPanel.java:691-695 | the clock-face hour of 0..23 lies in 1..12 and agrees with the hour modulo 12 |
| AdminDashboard.FormatHourLabel | src/LogisticsManagementSystem/AdminPanel.java:691-695 | for 0..23 the label is the clock-face hour followed by " AM" iff the hour is below 12, " PM" otherwise |
| AdminDashboard.ParseClockLabel | src/LogisticsManagementSystem/AdminPanel.java:694 | a label built from a clock-face hour 1..12 and a suffix reads back as the matching 24-hour value |
| AdminDashboard.HourLabelRoundTrip | src/LogisticsManagementSystem/AdminPanel.java:691-695 | every hour 0..23 is recovered from its label |
| AdminDashboard.HourLabelsInjective | src/LogisticsManagementSystem/AdminPanel.java:691-695 | no two hours of the day share a label |
| AdminDashboard.HourLabelExamples | src/LogisticsManagementSystem/AdminPanel.java:692-694 | 0 → "12 AM", 12 → "12 PM", 13 → "1 PM", 11 → "11 AM", 23 → "11 PM" |
| AdminDashboard.HourLabelOutOfRange | src/LogisticsManagementSystem/AdminPanel.java:691-695 | outside 0..23 the code still answers: 24 → "12 PM", -1 → "-1 AM" |

## Left out

- All Swing/AWT construction, painting, layouts, colours, dialogs, timers, navigation and the client sidebar panel: presentation with no statable behaviour.
- The JFreeChart datasets, `CircularProgressPanel` painting and the dashboard's aggregate queries: they rest on `NOW()`/`CURDATE()`, SQL aggregation and floating point.
- JDBC connections, resource closing and logging. The database is the in-memory `Store`; connection failures and SQLExceptions outside the statements listed above are not modelled.
- Timestamps (`created_at`, `estimated_delivery`, `actual_delivery`, `generated_at`) and hence every `ORDER BY` on them: queries return sets of ids, or rows in the order given.
- The LEFT JOIN with `delivery_assignments` in getActiveOrders (the current location column) and the JOIN with `users` in the panels' loaders: those tables are not modelled. An order whose client has no user row would not be listed by the panels, and getActiveOrders (ClientPortal.java:105-111) returns an order once per matching `delivery_assignments` row, whereas the model returns a set of ids with each order once.
- The `bills.status` column and other columns filled by database defaults. The defaults of a new `orders` row are assumed to be payment status "PENDING", bill_generated false, and null OTP and bill data, since the schema is not part of this model.
- Bill and invoice text (`createBillContent`, `generateInvoicePDF`), `String.format` money text and the placeholder `calculateRemainingAmount` constant; the bill text is a parameter of `SaveBillToDatabase`.
- The path of createOrder where the INSERT succeeds but no generated key is returned (it answers -1 with the row inserted); it is folded into the order-insert failure.
- Java `double` quantities: NaN passes the `quantity <= 0` check in the source; the model's `real` has no NaN or infinity.
- Unicode case mapping (including length-changing mappings such as 'ß') and SQL collation rules: case mapping is ASCII only and SQL string comparisons are exact.
- Null status or payment-status strings reaching `switch`, `formatStatus` or `equalsIgnoreCase` (a NullPointerException in the source): statuses are non-null strings in the model.
- The Track Order and View Bill dialogs, driver lookup and the admin's `handleGenerateBill` invoice dialog: they only display data.
- The order a View Bill button opens: the Pay handler rebinds the relabelled button to the clicked order's bill, and cards carry only their action, not its target order.
- The order-history panel loads its cards once, when it is built; no reload after a payment is modelled beyond `PaidPanelBuildsViewBill`'s statement about cards built while the flag is set.
- Driver assignment, OTP generation, delivery confirmation and partial payments: they are not in the modelled code.
- The `formatStatus` copies in TrackOrderPanel and completedOrdersAdmin are never called there; they share the one definition in `StatusFormat`.

## Findings

| source | as written | input that shows it | evidently intended | confidence | as-written member | corrected member |
|---|---|---|---|---|---|---|
| src/LogisticsManagementSystem/OrderHistoryPanel.java:244-246 | the Pay handler relabels the panel field `actionButton`, which holds the button of the last card built | two delivered orders; click Pay on the first and confirm: the first card still shows Pay, the second shows View Bill | the card whose Pay was clicked switches to View Bill | high (not executed) | OrderHistoryPanel.HandlePaymentDialog, OrderHistoryPanel.PayRelabelsWrongCard | OrderHistoryPanel.HandlePaymentDialogForCard |
