# Saleor: verified models

Dafny models of five parts of Saleor, with proofs of what each of them promises. `dafny verify dfyconfig.toml` checks
everything.

**Block strings** (`saleor/graphql/schema_printer.py`). `BlockStringParser` is the reader that section 2.9.4 of the
GraphQL specification (October 2021) prescribes: lexing between triple quotes, then BlockStringValue. `SchemaPrinter`
is the printer. For every text the scanner accepts, the printed block string, moved by any indentation, is read back as
that text exactly when the text consists of source characters and keeps its indent; a text without U+0085, U+2028 and
U+2029 always does. The character scanner with its four flags accepts exactly the values that some block string can have.

**Completing a checkout** (`saleor/checkout/complete_checkout.py`). `CheckoutProtocol` describes requests as program
counters over a shared store. Every step is one database transaction, or one statement outside any, and steps of
different requests, expiry batches and crashes interleave freely. `CheckoutDatabase` has the same steps as statements
with savepoints, commits on errors and rollbacks, each proved equal to its step of the protocol. `CheckoutLock` looks
inside one step: reading a voucher, locking its row, looking at the limit again and counting, which in every interleaving
amounts to a single step. `CheckoutHistory` and `CheckoutOffers` say what the events of a request lead to whatever comes in
between: which of them end in an order, and with which voucher. Over every interleaving the voucher counters balance, no
counter passes its limit, and a checkout becomes at most one order unless a request kept it. Every customer record has one
holder exactly as long as no order expires that gives back a record it never took, which the transaction flow allows;
`CheckoutSlotless` says which events make an order with a voucher for which no slot was taken.

**Fulfillments** (`saleor/order/actions.py`). `Fulfillment` describes the operations on the tables of order lines,
fulfillments and fulfillment lines; `FulfillmentStore` carries them out with the lists of objects to create, update and
delete that the source keeps. Moves conserve every order line and stock, all runs keep the order lines balanced, and the
replacement order and the refunded amount match what was moved. Cancelling a fulfillment with two lines of one order
line, and replacing or refunding one order line twice in a request, are where the code does not do this; the exact
conditions are proved, for requests with any repetitions. Only a caller of these functions can repeat an order line: the
mutations pair the quantities of a request with nodes that were looked up by their distinct keys
(`saleor/graphql/order/mutations/fulfillment_refund_and_return_product_base.py:145-158`,
`saleor/graphql/utils/__init__.py:135-136`), so that no line reaches these functions twice.

**Discounts** (`saleor/order/base_calculations.py`, `saleor/checkout/base_calculations.py`,
`saleor/checkout/calculations.py`, `saleor/discount/utils.py`). The total of an order under mixed discounts, the split of
an entire-order discount over checkout lines, and the reconciliation of stored promotion discounts with the current
rules. What the checkout lines lose, after each is limited to its own price, adds up to a discount within the subtotal
when no unit price is rounded, and otherwise exactly when the parts that the lines lose make up one: each the part of
its own price in the total that the line assumes, or in the discount if that is more. Money is real. Percentages, shares, unit prices and
rounding are parameters with a contract, so that what does not depend on their rounding is proved for any; `Prices` also
has the exact and half-even ones.

**Promotion notifications** (`saleor/discount/tasks.py`, `saleor/core/schedules.py`). One toggle of the task at one
instant, runs of toggles, the schedule that wakes the task, and both together: whenever the schedule is asked, every
start or end that passes after the first call is announced once, and no later than the next call is late; one that was
overdue at the first call is announced once when the first interval has passed.

## Model

| member | source | states |
|---|---|---|
| `BlockStringScanner.IsPrintableAsBlockString` | saleor/graphql/schema_printer.py:354-388 | the four-flag loop returns true exactly when the text is empty, or has no control character up to U+000F but newline and tab, its first and last lines are not blank, and it is one line or has a non-blank line without leading white space |
| `BlockStringScanner.AcceptsExactlyTheValues` | saleor/graphql/schema_printer.py:354-388 | a source text is accepted exactly when some block string has it as its value under section 2.9.4 |
| `BlockStringEscaping.LexEscaped` | saleor/graphql/schema_printer.py:401-442 | lexing an escaped text followed by quotes gives back the text and stops at those quotes, if the text ends safely |
| `BlockStringEscaping.FramedClosesSafely` | saleor/graphql/schema_printer.py:414-440 | with the breaks a safe frame puts around it, an indented text never spoils its closing quotes |
| `BlockStringEscaping.ChosenFrameIsSafe` | saleor/graphql/schema_printer.py:414-440 | the breaks the printer chooses are safe for every text and both values of `minimize` |
| `BlockStringEscaping.EscapeReindent` | saleor/graphql/schema_printer.py:401-472 | escaping quotes and indenting after breaks commute |
| `BlockStringRoundTrip.PrintThenRead` | saleor/graphql/schema_printer.py:391-442 | every accepted text, printed with either `minimize`, moved by any white indentation and followed by any text, is read back exactly when it is source text and keeps its indent, and the reader stops at the printer's own quotes |
| `BlockStringRoundTrip.NoForeignBreakKeepsIndent` | saleor/graphql/schema_printer.py:404-439 | without the line breaks only Python knows, the choice of a leading break always keeps the indent |
| `BlockStringRoundTrip.RoundTrip` | saleor/graphql/schema_printer.py:391-442 | the round trip for all accepted source texts without U+0085, U+2028 and U+2029 |
| `BlockStringRoundTrip.DescriptionThenRead` | saleor/graphql/schema_printer.py:445-472 | a printed description starts with its indentation, on a new line when something comes before it in an indented block, and what follows is read back as the right-stripped description under the same exact condition |
| `BlockStringRoundTrip.OtherDescriptions` | saleor/graphql/schema_printer.py:459-472 | a description that cannot be a block string is printed as it was quoted, and no description prints nothing |
| `BlockStringRoundTrip.MinimizedFrame` | saleor/graphql/schema_printer.py:404-440 | minimized, without the line breaks only Python knows, a break is printed before or after the text exactly where it would be read back wrong without it |
| `BlockStringRoundTrip.LaidOutFrame` | saleor/graphql/schema_printer.py:404-440 | otherwise a text is printed on lines of its own exactly when it has several lines, is longer than 70 characters or ends in a quote or a backslash, except that one line with leading white space stays behind the opening quotes |
| `BlockStringScanner.ForeignBreakLosesIndent` | saleor/graphql/schema_printer.py:404-439 | a concrete accepted text with U+2028 that is read back changed |
| `CheckoutDatabase.Database.ReleaseVoucherUsage` | saleor/discount/utils.py:60-88 | the counter is lowered only under a usage limit, the record is always removed, and nothing changes when the counter cannot go lower |
| `CheckoutDatabase.Database.LockActiveVoucher` | saleor/checkout/utils.py:515-539 | gives the voucher exactly when its limit, window and channel allow it |
| `CheckoutDatabase.Database.ProcessVoucherData` | saleor/checkout/complete_checkout.py:104-129 | the counter goes up before the customer record is looked for; what is left after a rejection |
| `CheckoutDatabase.Database.CompletePrePayment` | saleor/checkout/complete_checkout.py:1454-1475 | the first locked transaction, which commits on errors other than those of the database, is the protocol step |
| `CheckoutDatabase.Database.ProcessPaymentOf` | saleor/checkout/complete_checkout.py:1477-1501 | the payment outside any transaction, and the first statement that gives the voucher back; what each result leads to is said by `CheckoutHistory` |
| `CheckoutDatabase.Database.ReleaseAfterFailedPayment` | saleor/checkout/complete_checkout.py:825-827 | after a declined payment the two statements with nothing in between do what a release inside a transaction does |
| `CheckoutDatabase.Database.CreateOrder` | saleor/checkout/complete_checkout.py:513-652 | an existing order is returned as it is; an error after the order was written restores the savepoint |
| `CheckoutDatabase.Database.CompletePostPayment` | saleor/checkout/complete_checkout.py:1503-1533 | the second locked transaction with its releases is the protocol step |
| `CheckoutDatabase.Database.TakeUsageOf` | saleor/checkout/complete_checkout.py:961-972 | the usage of the transaction flow: an inactive voucher takes nothing and stops nothing, and a customer who used it is refused; see `CheckoutOffers` |
| `CheckoutDatabase.Database.CreateOrderFromCheckout` | saleor/checkout/complete_checkout.py:1283-1320 | the second transaction of the transaction flow, whose releases are rolled back with it |
| `CheckoutDatabase.Database.ExpireBatch` | saleor/order/tasks.py:111-118 | a batch marks its orders, lowers the counters and removes the records, or does nothing |
| `CheckoutDatabase.Database.LowerCounters` | saleor/order/tasks.py:47-61 | the part of every limited counter that no live order accounts for stays, no other counter changes, and the statement fails exactly when some counter is short of the orders that expire |
| `CheckoutAccounting.StepKeeps` | saleor/checkout/complete_checkout.py:1436-1533 | every step of either flow, of expiry and of deletion keeps the store sane, every counter in balance and no counter past its limit |
| `CheckoutAccounting.CountersBalance` | saleor/checkout/complete_checkout.py:1251-1320 | in every interleaving of both flows a counter is its start plus the slots held by requests and live orders, less the orders that got the voucher without a slot |
| `CheckoutSlotless.SlotlessExactly` | saleor/checkout/complete_checkout.py:961-972 | an event makes an order with a counted voucher and no slot exactly when a request of the transaction flow creates its order after it found the voucher inactive when taking the usage, or with a voucher that it takes from the checkout only then |
| `CheckoutSlotless.CountersBalanceByEvents` | saleor/checkout/complete_checkout.py:1251-1320 | the exact account of a counter, with the orders made without a slot counted by the events that make them |
| `CheckoutSlotless.LimitBoundsLiveOrders` | saleor/checkout/complete_checkout.py:1251-1320 | in every interleaving of both flows the live orders with a limited voucher exceed what the limit leaves above the start by no more than the orders made without a slot |
| `CheckoutAccounting.PaymentFlowAccounts` | saleor/checkout/complete_checkout.py:1436-1533 | in every interleaving of the payment flow a counter is exactly its start plus held, stranded and ordered slots, and never falls below its start |
| `CheckoutAccounting.LiveOrdersStayWithinLimit` | saleor/checkout/complete_checkout.py:1436-1533 | in every interleaving of the payment flow the live orders with a limited voucher never number more than the limit leaves above the start |
| `CheckoutAccounting.LimitIsNeverPassed` | saleor/checkout/utils.py:531-536 | under any interleaving of both flows no counter passes its usage limit |
| `CheckoutLock.LimitHoldsUnderLocks` | saleor/checkout/utils.py:531-536 | with reading, locking, looking again, counting, committing and undoing as steps of their own, the committed counter and an uncommitted usage stay within the limit in every interleaving |
| `CheckoutLock.LockedIsAtomic` | saleor/checkout/utils.py:531-536 | in every interleaving the committed counter is what steps give that look and count at once, and none of them finds the limit reached |
| `CheckoutLock.LimitNeedsTheLock` | saleor/checkout/utils.py:535-536 | concrete statements of two transactions that pass a limit of one without the lock, and do not with it |
| `CheckoutHistory.RequestsTellTheirSteps` | saleor/checkout/complete_checkout.py:1436-1533 | in every interleaving of both flows, where a request stands, and how it ended, tells the steps that led there: which transactions it ran, and what payment and what error they had |
| `CheckoutHistory.OrdersFitTheirSteps` | saleor/checkout/complete_checkout.py:550-554 | in every interleaving an order of a request is for its checkout and customer, was made after a first transaction without errors and a payment that requires no action, or after taking the usage, and never expires when it was confirmed |
| `CheckoutHistory.RefusedPaymentMakesNoOrder` | saleor/checkout/complete_checkout.py:1477-1501 | in every interleaving a request whose payment failed, requires an action or became inactive never has an order |
| `CheckoutHistory.ActionRequiredMakesNoOrder` | saleor/checkout/complete_checkout.py:897-906 | in every interleaving, after a payment that requires an action the second transaction keeps orders and checkouts and gives the voucher back, unless the counter cannot go lower, which undoes it |
| `CheckoutHistory.ActionRequiredGivesBack` | saleor/checkout/complete_checkout.py:897-906 | in every interleaving of the payment flow it always gives the voucher back |
| `CheckoutHistory.ClearedPaymentMakesOrder` | saleor/checkout/complete_checkout.py:908-922 | in every interleaving, after a payment that requires no action the second transaction makes the order with the voucher that was taken, confirmed or not, and deletes the checkout; when there is an order already it returns the first and deletes the checkout |
| `CheckoutOffers.FirstTransactionGoesOn` | saleor/checkout/complete_checkout.py:104-129 | a first transaction goes on to the payment exactly when nothing fails, the checkout is there, and its voucher, if any, can be used by this customer |
| `CheckoutOffers.FirstTransactionCounts` | saleor/checkout/complete_checkout.py:104-129 | it counts and records a voucher that can be used; that the customer used it before, and unexpected errors, leave it counted, and an error of the taxes gives it back |
| `CheckoutOffers.TakingUsageGoesOn` | saleor/checkout/complete_checkout.py:961-972 | taking the usage goes on exactly when the request is not refused and its voucher, if it can be used, was not used by this customer; that refusal changes nothing but the end of the request |
| `CheckoutOffers.TakingUsageCounts` | saleor/checkout/complete_checkout.py:961-972 | taking the usage counts and records a voucher that this customer can use, and nothing otherwise |
| `CheckoutOffers.TakenUsageMakesOrder` | saleor/checkout/complete_checkout.py:1283-1309 | in every interleaving, after taking the usage the second transaction makes the order, confirmed or not, with the voucher of the request or else the one that the checkout has and can be used, and deletes the checkout if asked to |
| `CheckoutOffers.OrderVoucherOffered` | saleor/checkout/utils.py:515-539 | in every interleaving the voucher of an order was on its checkout and could be used when the request arrived, in its first transaction or when it made the order |
| `CheckoutAccounting.LiveOrdersExpire` | saleor/order/tasks.py:47-69 | expiring a batch takes exactly its carriers from the live orders of a voucher |
| `CheckoutRecords.StepKeepsRecords` | saleor/discount/utils.py:66-88 | a step of either flow, of expiry or of deletion keeps one holder for each customer record exactly when it is not the expiry of an order that gives back a record it never took |
| `CheckoutRecords.OneHolderPerRecord` | saleor/checkout/complete_checkout.py:122-129 | in every interleaving of the payment flow each new record of a once-per-customer voucher has exactly one holder, and no two live orders carry the voucher for one customer |
| `CheckoutRecords.HeldUnlessStraying` | saleor/order/tasks.py:63-69 | over every interleaving of both flows each record has its one holder throughout exactly when no order expires that gives back a record it never took |
| `CheckoutRecords.OneTakerPerRecord` | saleor/discount/utils.py:66-71 | so in every such interleaving no two requests or live orders took the same new record |
| `CheckoutRecords.RecordIsTakenOnce` | saleor/discount/utils.py:66-71 | in every interleaving of both flows a request takes a customer record only when it is not there |
| `CheckoutStrays.StrayExpiryFreesRecord` | saleor/order/tasks.py:63-69 | concrete run: an order of the transaction flow that took no record expires and removes the record of an earlier order, and another request of the customer takes it again |
| `CheckoutRecords.EndingsGiveBack` | saleor/checkout/complete_checkout.py:878-937 | in every interleaving of both flows, payment-flow requests that end in a refusal, a tax error, a failed payment, an action required, missing stock or a refused gift card hold no slot and no record and have no order |
| `CheckoutRecords.EndingsStrand` | saleor/checkout/complete_checkout.py:1496-1511 | in every interleaving of both flows, payment-flow requests that end with a checkout that is gone, an existing order, an inactive payment, a refund under way or a record of another order still hold the slot they took |
| `CheckoutRecords.GivingBackUndoesTaking` | saleor/checkout/complete_checkout.py:825-937 | a request that took its voucher and ends with a failed payment, an action required, missing stock or a refused gift card puts back the counter, and undoes all else exactly when the customer had no record for the voucher before |
| `CheckoutOrders.AtMostOneOrderEver` | saleor/checkout/complete_checkout.py:539-542 | in every interleaving of the payment flow and the deleting transaction flow no checkout becomes two orders |
| `CheckoutOrders.TwoOrdersNeedKeptCheckout` | saleor/checkout/complete_checkout.py:1283-1309 | in every interleaving of both flows, with and without deleting, a checkout has two orders only if a request completed it and kept it |
| `CheckoutOrders.SecondOrderNeedsKeptCheckout` | saleor/checkout/complete_checkout.py:1283-1309 | in every interleaving, when a checkout becomes an order again, a request that completed and kept it has ended before |
| `CheckoutOrders.GoneCheckoutGivesItsOrder` | saleor/checkout/complete_checkout.py:1503-1511 | a request for a completed checkout that none kept finds it gone, creates nothing and returns the order with that token while there is one |
| `CheckoutOrders.SlotlessOrderLowersCounter` | saleor/checkout/complete_checkout.py:1278-1295 | concrete run: a voucher whose window ends after the checkout was loaded takes no slot but reaches the order, and the expiry of the order takes the counter below its start |
| `CheckoutOrders.KeptCheckoutGivesTwoOrders` | saleor/checkout/complete_checkout.py:1307-1309 | concrete run: without deleting the checkout two orders are made from it |
| `FulfillmentStore.OrderStore.IncreaseOrderLineQuantity` | saleor/order/actions.py:693-700 | the loop adds every request, whatever its quantity, to the shared row of its order line |
| `FulfillmentStore.OrderStore.CreateFulfillmentLines` | saleor/order/actions.py:774-888 | raises exactly when a wanted order line has no stock, unless that may be, or its stock cannot be decreased for an approved fulfillment, and then changes no order line |
| `FulfillmentStore.OrderStore.CreateFulfillments` | saleor/order/actions.py:891-989 | raises exactly when that is so in some warehouse, and then leaves the store as it was; otherwise every order line gains its wanted requests, and one new fulfillment for each warehouse has them with the stock of that warehouse and nothing else |
| `FulfillmentCreation.CreationIsCreated` | saleor/order/actions.py:891-989 | the same of the specification: gains, statuses and rows of a creation, said with the requests, warehouses and stocks alone |
| `FulfillmentStore.OrderStore.ApproveFulfillment` | saleor/order/actions.py:491-570 | raises exactly when a row has no stock, unless that may be, or a stock cannot be decreased, and then leaves the store as it was; otherwise sets the status |
| `FulfillmentStore.OrderStore.CancelWaitingFulfillment` | saleor/order/actions.py:463-488 | every fulfillment line lowers its own copy of the order line and the first copy is written |
| `FulfillmentStore.OrderStore.MoveOrderLines` | saleor/order/actions.py:1028-1081 | the loop with its list of lines to create is the move of the specification |
| `FulfillmentStore.MoveObjects` | saleor/order/actions.py:1098-1124 | every changed row is in the list to update or is deleted, and objects and new lines are those of the specification |
| `FulfillmentStore.OrderStore.MoveFulfillmentLines` | saleor/order/actions.py:1084-1136 | writing, creating and deleting from the three lists gives the moved table |
| `FulfillmentStore.OrderStore.CreateRefundFulfillment` | saleor/order/actions.py:1183-1213 | both moves into a new refunded fulfillment, then exactly the empty fulfillments go that are fulfilled or wait for approval |
| `FulfillmentStore.OrderStore.MoveLinesToReturn` | saleor/order/actions.py:1312-1368 | the split by earlier refund and the two moves |
| `FulfillmentStore.OrderStore.CreateFulfillmentsForReturnedProducts` | saleor/order/actions.py:1532-1578 | replacing, returning and deleting empty fulfillments, with the quantities of the replacement order |
| `FulfillmentStatuses.ReturnProductsStatuses` | saleor/order/actions.py:1532-1578 | the statuses of the new fulfillments: replaced, returned or refunded and returned, and one that is both for rows refunded before; exactly the empty ones go that are fulfilled or wait for approval |
| `FulfillmentStatuses.CancelledIsGone` | saleor/order/actions.py:463-488 | a cancelled fulfillment is gone with its rows, and no other |
| `FulfillmentStatuses.NewFulfillmentMerges` | saleor/order/actions.py:1183-1213 | a fulfillment line that comes to a new fulfillment gets a row of its own only if no order line without a stock was moved there that it could be merged with |
| `FulfillmentStatuses.MovedWithoutStock` | saleor/order/actions.py:1028-1081 | the rows of moved order lines have no stock and are in the target |
| `FulfillmentStore.CreateReplaceOrder` | saleor/order/actions.py:1246-1309 | the two loops fill the map of the draft order |
| `FulfillmentStore.CalculateRefundAmount` | saleor/order/actions.py:1581-1611 | the two loops add quantity times price for every request that was not refunded before, and fill the map of lines to refund |
| `FulfillmentStore.ProcessRefund` | saleor/order/actions.py:1615-1650 | the amount of the caller, or the price of all that was asked and not refunded before with the shipping; through a payment no more than was captured |
| `FulfillmentMoves.RequestMoves` | saleor/order/actions.py:1098-1124 | one request takes from its source exactly what its target gains, and changes no other total |
| `FulfillmentMoves.TransferRows` | saleor/order/actions.py:1084-1136 | every source loses the smaller of its quantity and what was asked of it in all, and exactly the sources left empty are deleted |
| `FulfillmentMoves.TransferConserves` | saleor/order/actions.py:1084-1136 | the total of every order line and stock stays, and the target gains exactly what the sources lose |
| `FulfillmentMoves.MergesWhenItCan` | saleor/order/actions.py:992-1025 | a line is created only when no listed line has its order line and stock |
| `FulfillmentRuns.LinesMoveExactly` | saleor/order/actions.py:1028-1081 | every order line gains, and the target receives, the smaller of what is unfulfilled and what was asked |
| `FulfillmentQuantities.CreateKeepsBalance` | saleor/order/actions.py:774-989 | creating keeps every order line balanced exactly when it raises or the requests are within the unfulfilled quantities |
| `FulfillmentQuantities.CancelKeepsBalance` | saleor/order/actions.py:463-488 | cancelling keeps every order line balanced exactly when no second line of an order line in it has a quantity |
| `FulfillmentQuantities.RepeatedLineIsNotReleased` | saleor/order/actions.py:478-483 | a concrete fulfillment with two lines of one order line of which only the first is released |
| `FulfillmentRuns.StepKeeps` | saleor/order/actions.py:463-1578 | every operation keeps `0 <= quantity_fulfilled <= quantity`, equal to the sum of the fulfillment lines, and waiting fulfillments with distinct order lines |
| `FulfillmentRuns.RunsStayBalanced` | saleor/order/actions.py:463-1578 | the same after every run of create, approve, cancel, refund, return and replace |
| `FulfillmentReturns.ReturnDestinations` | saleor/order/actions.py:1312-1368 | rows of refunded fulfillments go to a fulfillment that is refunded and returned, everything else to the new one, with exact quantities |
| `FulfillmentRefunds.MovedQuantity` | saleor/order/actions.py:1371-1390 | what a new fulfillment gets of an order line from unfulfilled and fulfilled sources |
| `FulfillmentRefunds.ReplacementMatchesMoves` | saleor/order/actions.py:1246-1309 | the draft order has what was moved of an order line exactly when the requests for it but the last ask for as much as the requests exceed what there is: for requests in range, exactly when those ask for nothing |
| `FulfillmentRefunds.RepeatedLineIsLost` | saleor/order/actions.py:1264-1276 | a concrete request with one order line twice, of which the draft order has only the second |
| `FulfillmentRefunds.AmountIsPrice` | saleor/order/actions.py:1581-1611 | the amount is the sum of quantity times price over the order lines that were asked for and over the rows whose fulfillment was not refunded before |
| `FulfillmentRefunds.AmountIsValueAndOverwritten` | saleor/order/actions.py:1581-1611 | the amount is the price of the resulting map, sum of quantity times price, plus that of the entries that were overwritten |
| `FulfillmentRefunds.AmountIsValue` | saleor/order/actions.py:1581-1611 | the amount is the price of the map exactly when a request whose order line is requested again asks for nothing or for something free |
| `FulfillmentRefunds.RefundedQuantity` | saleor/order/actions.py:1592-1611 | the map has the last request for an order line and its fulfillment lines that were not refunded before: all that was asked exactly when the earlier requests ask for nothing |
| `FulfillmentRefunds.RefundIsCapped` | saleor/order/actions.py:1633-1642 | what is refunded is the amount of the caller, or the price of all that was asked and not refunded before with the shipping, and through a payment no more than was captured |
| `Prices.Round` | saleor/core/prices.py:13-16 | rounding to the nearest integer, with ties to the even one |
| `Prices.HalfEvenIsRounding` | saleor/core/prices.py:13-16 | half-even rounding to a unit is within half a unit, monotone, and keeps zero |
| `Prices.ExactShareIsShare` | saleor/order/base_calculations.py:73-76 | an unrounded share of a part and that of the rest exceed neither |
| `Prices.ExactShareAddsUp` | saleor/order/base_calculations.py:73-76 | the unrounded shares of two parts make up the amount |
| `Prices.ExactMeetsContracts` | saleor/core/prices.py:13-16 | arithmetic that rounds only to the unit of the currency has every contract that the theorems about any rounding ask for |
| `OrderDiscounts.BaseOrderSubtotal` | saleor/order/base_calculations.py:20-27 | the loop adds the prices of all pieces |
| `OrderDiscounts.Discounted` | saleor/order/base_calculations.py:46-83 | the three branches, and what the discount took from subtotal and shipping |
| `OrderDiscounts.BaseOrderTotal` | saleor/order/base_calculations.py:30-94 | every discount records exactly what it took, those written are exactly those whose amount changed, and the total is what the discounts leave |
| `OrderDiscounts.NeverNegative` | saleor/order/base_calculations.py:43-83 | after every discount subtotal and shipping are not negative and the amounts account for the difference |
| `OrderDiscounts.TotalIsWhatIsLeft` | saleor/order/base_calculations.py:80-94 | the total is subtotal plus shipping less the sum of the recorded amounts; the final maximum changes nothing |
| `OrderDiscounts.TotalNeverNegative` | saleor/order/base_calculations.py:80-94 | whatever the discounts are, the total is what they leave, or nothing |
| `OrderDiscounts.FixedStaffDiscount` | saleor/order/base_calculations.py:64-79 | a fixed staff discount takes its value, or all there is |
| `OrderDiscounts.PercentageStaffDiscount` | saleor/order/base_calculations.py:63-68 | a percentage of the staff is taken from the subtotal and from the shipping price |
| `OrderDiscounts.FixedStaffDiscountIsShared` | saleor/order/base_calculations.py:64-79 | without rounding, subtotal and shipping each lose their own share of it |
| `OrderDiscounts.VoucherLeavesShipping` | saleor/order/base_calculations.py:46-52 | a voucher never touches the shipping price; a fixed one takes its value or the whole subtotal, and a percentage leaves what the library leaves of the subtotal |
| `CheckoutPrices.CalculateBaseLineTotalPrice` | saleor/checkout/base_calculations.py:43-96 | the loop over the promotion discounts and the voucher branches give the line total |
| `CheckoutPrices.LineTotalIsLeft` | saleor/checkout/base_calculations.py:43-96 | a line total is the rounded price of its pieces less its promotions and what its voucher takes: from one piece, from the total, or a fixed value from every piece |
| `CheckoutPrices.VoucherStaysWithinTotal` | saleor/checkout/base_calculations.py:65-94 | a voucher takes between nothing and the whole total, so its maximum with zero changes nothing |
| `CheckoutPrices.LineTotalNonNegative` | saleor/checkout/base_calculations.py:43-96 | a line total is between zero and the rounded price after promotions, when those do not exceed the price |
| `CheckoutDiscounts.DiscountsAddUp` | saleor/checkout/base_calculations.py:295-337 | for a positive discount and totals of which no single line is all: when no line passes on more than its total the lines lose at most the discount, up to the subtotal; when none passes on less they lose at least that; in either case they lose exactly that when every line, also the last, passes on its total, and only then |
| `CheckoutDiscounts.DiscountsFollowParts` | saleor/checkout/base_calculations.py:295-337 | with unit prices rounded in any directions, and no division that raises, the lines lose the discount times the sum of their parts, each the part of its own price in the larger of the discount and the total that the line assumes; they lose exactly the discount when those parts make up one, and only then |
| `CheckoutDiscounts.TwoLinesAddUp` | saleor/checkout/base_calculations.py:295-337 | two lines with any rounded prices lose exactly the discount when the product of their prices is that of what each sees beside it, the other's total or the rest of the discount; with a discount up to both assumed totals, when the product of the prices is that of the totals |
| `CheckoutDiscounts.ExactUnitsAddUp` | saleor/checkout/base_calculations.py:295-337 | when unit prices need no rounding, the lines lose at most the discount for any rounding of the shares, and exactly the discount when no line is limited to its price, and only then |
| `CheckoutDiscounts.TwoExactUnitsAddUp` | saleor/checkout/base_calculations.py:295-337 | two lines whose unit prices need no rounding lose exactly a discount up to the subtotal, for any rounding that keeps a share within its part and the discount |
| `CheckoutDiscounts.EveryLineTakesItsOwnShare` | saleor/checkout/base_calculations.py:308-337 | whatever its rounded price, every line, also the last, which takes what the others leave, loses the share of its own price in the larger of the discount and the total that it assumes |
| `CheckoutDiscounts.LimitedLine` | saleor/checkout/base_calculations.py:313-337 | whatever its rounded price, a line is limited to it exactly when the price is not zero and the discount exceeds the total that the line assumes |
| `CheckoutDiscounts.EveryLineGetsItsShare` | saleor/checkout/base_calculations.py:308-337 | for unit prices that need no rounding and a discount up to the subtotal, every line, also the last, loses the discount in proportion to its total |
| `CheckoutDiscounts.NoLineIsClamped` | saleor/checkout/base_calculations.py:313-316 | for unit prices that need no rounding, a discount up to a positive subtotal leaves every line discount between zero and the line total |
| `CheckoutDiscounts.SplitRefinesSimple` | saleor/checkout/base_calculations.py:212-239 | for unit prices that need no rounding, the split over the lines adds up to the subtotal that `checkout_total` computes without lines, and raises exactly when several lines are worth nothing together |
| `CheckoutDiscounts.SplitAgainstSimple` | saleor/checkout/base_calculations.py:212-239 | with unit prices rounded down the split leaves no more than the subtotal without lines, with unit prices rounded up no less; it leaves exactly that when nothing was rounded or every line that was is limited to its price, and only then |
| `CheckoutDiscounts.UnsplitPrices` | saleor/checkout/base_calculations.py:274-280 | without a voucher, with one applied once per order, and with one for shipping or specific products, nothing raises, every line keeps its price, and nothing is taken from the subtotal |
| `CheckoutDiscounts.OneLine` | saleor/checkout/base_calculations.py:286-292 | a single line loses the whole discount, up to its price |
| `CheckoutDiscounts.SubtotalIsNear` | saleor/checkout/calculations.py:447-461 | with unit prices that need no rounding, the rounded subtotal is within half a unit for each line of the base subtotal less the discount |
| `CheckoutDiscounts.StoredDiscountIsTaken` | saleor/checkout/utils.py:598-606 | the stored discount never exceeds the subtotal, so that it is taken in full |
| `CheckoutPrices.ShippingDiscountIsStored` | saleor/checkout/utils.py:602-606 | the stored discount of a shipping voucher is not limited by the subtotal, and the shipping price loses all of it |
| `CheckoutPrices.StoreLinePrices` | saleor/checkout/calculations.py:447-461 | the loop stores the rounded price of every line and adds them up, or raises; with a voucher that is not split these are the own prices of the lines, and nothing raises |
| `CheckoutPrices.Checkout.GetCheckoutBasePrices` | saleor/checkout/calculations.py:439-479 | the stored line prices, subtotal and total, split over the lines for an entire-order voucher that is not once per order, and the own prices of the lines otherwise; the shipping price loses the discount only to a shipping voucher |
| `CheckoutPrices.RoundedUnitLosesDiscount` | saleor/checkout/calculations.py:447-456 | two concrete lines, one with an overridden price of three decimals: its unit price is rounded and the lines lose less than the discount |
| `CheckoutPrices.LimitedLineLosesDiscount` | saleor/checkout/base_calculations.py:313-316 | two concrete lines rounded in opposite directions whose prices have the product of their totals: under a discount of the whole subtotal one is limited to its price, and the lines lose less than the discount |
| `PromotionStore.RemoveStale` | saleor/discount/utils.py:381-392 | the discounts whose rule is gone leave the line and are collected for deletion |
| `PromotionStore.UpdateOrCreate` | saleor/discount/utils.py:322-348 | the loop over the rules revises or creates discounts and collects the changed fields |
| `PromotionStore.DiscountStore.CreateOrUpdateDiscounts` | saleor/discount/utils.py:284-361 | the loop with its lists and the writes after it give the specified lines and rows; deleting early makes no difference |
| `PromotionReconciled.OneDiscountPerRule` | saleor/discount/utils.py:299-348 | a line whose price differs from its discounted price ends with exactly one discount for every current rule, with the rule's amount times the quantity, its value and its names, exactly when no two of its discounts had one rule before |
| `PromotionReconciled.NoneOnUndiscounted` | saleor/discount/utils.py:304-309 | a line without pieces, without one of the prices, or with equal prices ends with none, and all its promotion discounts are deleted |
| `PromotionRows.RowsAgree` | saleor/discount/utils.py:350-361 | every object on a line equals its row, although only the union of the changed fields is written |
| `PromotionRows.OtherRowsStay` | saleor/discount/utils.py:350-361 | the rows of other lines are not touched |
| `PromotionRows.DroppedRowsAreDeleted` | saleor/discount/utils.py:304-319 | a promotion discount that is not on its line any more has no row |
| `PromotionRows.SecondCallIsIdle` | saleor/discount/utils.py:284-361 | a second call creates nothing, deletes nothing and leaves every row as it is |
| `PromotionSchedule.PromotionTable.HandlePromotionToggle` | saleor/discount/tasks.py:30-99 | one toggle sends the due notices and marks their promotions |
| `PromotionSchedule.AnnouncedExactlyOnce` | saleor/discount/tasks.py:102-139 | after any run of toggles each start and each end was announced exactly once if it is not after the last toggle, and otherwise never |
| `PromotionSchedule.AnnouncedAtFirstChance` | saleor/discount/tasks.py:102-139 | every notice is sent by the first toggle that is not before its boundary |
| `PromotionSchedule.Nearest` | saleor/core/schedules.py:79-99 | the nearest boundary ahead that no notice covers |
| `PromotionSchedule.LoopAnnouncesOnce` | saleor/core/schedules.py:53-116 | whenever the schedule is asked, with the task run when it is due, nothing is announced twice or too early; every boundary after the first call that is not after the last one has been announced once, and so has one that was overdue at the first call when a first interval has passed since the last run |
| `PromotionSchedule.AnnouncedInTime` | saleor/core/schedules.py:53-116 | a boundary that passes between two calls is announced by the second, late by no more than that call is after the delay asked for: at the very instant when it is on time |
| `PromotionSchedule.Tick` | saleor/core/schedules.py:53-116 | one call of the schedule and the task it starts are the step that those two are about |
| `PromotionSchedule.PromotionWebhookSchedule.IsDue` | saleor/core/schedules.py:53-116 | due exactly when the last delay has passed and something is to be announced; the next delay is the least of the initial interval and the time to every boundary still to be announced |

## Left out

Block strings:

- U+0085, U+2028 and U+2029: inside the model, but the round trip fails for some texts with them; the exact condition is `KeepsIndent`.
- The quoted string that `print_description` falls back to is a parameter, and the rest of the schema printer is not modelled.

Checkout:

- Voucher settings and the email of a request are fixed, and an email is never empty.
- Codes, tokens and emails are numbers, since they are only compared; draft orders are left out.
- The gateway is a choice of success, failure, action required or a payment that became inactive; its refunds and voids after errors change nothing in the model.
- Stock, gift cards and taxes are choices of success or error, and so are all other errors on the way.
- CheckoutDatabase.Database.LockActiveVoucher: takes the dates and the channel listing of a voucher as one given truth value, because neither changes in a run of the model; the lock of the row is not in this method but in `CheckoutLock`.
- CheckoutOrders.AtMostOneOrderEver: does not cover requests of the transaction flow that keep the checkout, because there it is false; `KeptCheckoutGivesTwoOrders` shows it, and `TwoOrdersNeedKeptCheckout` says for all requests that nothing else makes it false.
- CheckoutAccounting.LimitIsNeverPassed: claims only the upper bound, because in the transaction flow a counter can fall below its start; `SlotlessOrderLowersCounter` shows it, and `CountersBalanceByEvents` says by how much.
- CheckoutRecords.OneHolderPerRecord: is about the payment flow, because an order of the transaction flow can carry a voucher without its record; `OneTakerPerRecord` is about both flows.
- CheckoutRecords.OneTakerPerRecord: asks that no order expires that gives back a record it never took, because without that it is false, as `StrayExpiryFreesRecord` shows; `HeldUnlessStraying` says that nothing else makes it false.
- Which orders a batch of expiry or deletion selects: any batch of orders with the right status is allowed.

Fulfillments:

- One object for each row of an order line or fulfillment line; objects that were loaded twice are modelled only where the source does it, in `cancel_waiting_fulfillment`.
- `bulk_update` with two objects for one row writes the first of them, as the `CASE` it sends to the database does.
- The stock of a variant in a warehouse and the success of decreasing it are given; deallocation, gift cards, digital content, events, webhooks and the status of the order are left out.
- Negative requests: the moves follow the code on them but the theorems ask for requests that are not negative; a negative quantity of a new row, which the database refuses, is not modelled as an error.
- FulfillmentRuns.RunsStayBalanced: asks what the API checks before it calls, that is requests within the unfulfilled quantities and distinct order lines for a warehouse that waits for approval; where this is not checked, `CreateKeepsBalance` and `CancelKeepsBalance` say exactly when the balance is kept.
- A refund that the gateway refuses raises before any fulfillment is touched, and is left out.
- `cancel_fulfillment`, `update_order_status` and `automatically_fulfill_digital_lines`, which rest on code of other files.

Discounts:

- Decimal contexts and the rounding of database columns: money is real, and rounding appears only where the source asks for it or as a parameter.
- CheckoutDiscounts.SubtotalIsNear: asks for unit prices that need no rounding, because without that the lines need not lose the discount; `DiscountsAddUp`, `DiscountsFollowParts` and `SplitAgainstSimple` say exactly when they do, and `RoundedUnitLosesDiscount` and `LimitedLineLosesDiscount` show cases.
- CheckoutDiscounts.EveryLineGetsItsShare: asks for unit prices that need no rounding; `EveryLineTakesItsOwnShare` is about any.
- CheckoutDiscounts.NoLineIsClamped: asks for unit prices that need no rounding, because lines with others can be limited; `LimitedLine` says exactly when.
- CheckoutDiscounts.SplitRefinesSimple: asks for unit prices that need no rounding; `SplitAgainstSimple` is about rounded ones.
- CheckoutPrices.Checkout.GetCheckoutBasePrices: does not say which lines were already priced when a division raises; line totals and unit prices are computed before the loop and not in it.
- Taxes, plugins and the price lookup of a variant; currencies are one unit of rounding.
- OrderDiscounts.NeverNegative: asks for values that are not negative and percentages up to 100, the contract under which the library keeps prices between zero and the price.
- PromotionReconciled.OneDiscountPerRule: is about lines with promotion discounts only and distinct current rules; the names that a rule gives a discount are taken as given.

Promotion notifications:

- The scheduler that asks the schedule and starts the task is not part of the repository; a task is run at the instant at which it was found due.
- The clock is read once for each toggle; the source reads it several times, and a boundary that falls between two reads would be missed.
- The deprecated sale webhook, the recalculation of prices and the logging of a toggle; the estimate of the remaining time is the sum of the last run and the last delay less the present time.
