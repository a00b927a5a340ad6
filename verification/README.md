# Marketplace back end: verified model

This project models the parts of a multi-seller marketplace back end where money is rounded and
where rows of a database are moved by several processes at once, and proves what those parts are
for. `dafny verify dfyconfig.toml` checks all of it.

| Files | What they model |
|---|---|
| `TcsLedger`, `TcsLedgerProofs`, `TcsLedgerCoverage`, `TcsLedgerLosses`, `TcsLedgerRepeats`, `TcsLedgerAmounts`, `TcsReports`, `TcsService` | Tax collected at source (section 52 of the CGST Act 2017): accruals per seller-order, proportional and clamped reversals per refund, payout netting, GSTR-8 and GSTR-1 roll-ups |
| `Coupon`, `CouponProofs`, `CouponExtremes`, `CouponService` | The coupon table, the discount, and its apportionment over stores and lines with GST on the discounted base |
| `Resilience`, `Outbox`, `OutboxProofs`, `OutboxTimely`, `OutboxService` | Backoff and retries; the transactional outbox as a transition system of transactions, relays, queued jobs and workers, and the event table with its methods |
| `Grievance`, `GrievanceProofs`, `GrievanceService`, `GrievanceReport` | The grievance state machine with operations that decide on stale reads, and the monthly compliance report |
| `Rules`, `RulesProofs` | Catalog rules: validation, the compiled filter with SQL's three truth values, and the direct predicate |
| `Newsletter`, `NewsletterPaging` | Resumable campaign fan-out with cursor paging and a consent gate; handlers interleaved batch by batch |
| `SoftDelete` | The soft-delete rewrite of database operations against a table that removes rows |
| `Category` | The category forest, its moves, the bounded walk to the root, and the shop filter's counts |
| `BackInStock` | Back-in-stock sweeps over an alert ledger |
| `Privacy` | Erasure requests, the cron's list of due ones, cancellation, and the claiming transaction |
| `NumberWords`, `NumberWordsProofs`, `Text` | Amounts in Indian-system words, and a reader for them |
| `Options`, `Rounding`, `Sums` | Shared: optional values, the two roundings, sums and grouped sums |

## How it is modelled

Money that the database stores is an integer number of its smallest unit: paise, and hundredths of
a paisa for taxable values. Quotients and products before rounding are exact, as `real`.
`Rounding.HalfAway` is the decimal library's rounding, `Rounding.HalfUp` is `Math.round`. Times are
integers in milliseconds on one clock.

Code that updates rows is a class whose methods are proved equal to functions of the old rows; the
lemmas are about those functions. Protocols with several processes are states with a step function:
a run is any sequence of enabled steps, so crashes, stale reads, slow workers and redeliveries are
just steps in unlucky places. A statement about "every run" quantifies over all such sequences.

Handlers, random numbers, the clock, the result of a mail send, and which rows a locking query
returns are parameters.

## What was found

These are proved, with the exact condition where there is one.

- Outbox: the writes of a worker or relay carry no status guard. DONE and FAILED survive every
  continuation exactly when nothing is in flight that can still write the row
  (`OutboxProofs.FinalExactlyWhenQuiet`); a handler that outlives the five-minute window can turn DONE
  back into PENDING (`OutboxProofs.LateFailureRevives`). With eight attempts no retry waits as long as
  64 seconds, so the five-minute cap never applies and the last retries do not "land minutes apart"
  as the comment in `src/modules/outbox/outbox-execution.service.ts` says.
- Coupons: the store shares add up to the discount exactly, where the interface comment in
  `src/modules/ecommerce/coupon/coupon.service.ts` says within one paisa. A share is negative exactly when
  it is the last store's and the others were rounded to more than the discount
  (`CouponExtremes.NegativeShare`): four stores of a hundred paise each share a discount of two as
  1, 1, 1, -1. No share is negative when the last of n stores is due at least (n - 1)/2 paise. The
  amount charged before tax can exceed the subtotal less the discount, because a line or store that
  is given more than it sells is floored at zero; by at most half a paisa for each line but one, and
  every even number of lines has a cart that reaches the bound (`CouponExtremes.ExcessBoundReached`).
- Tax ledger: k refunds that cover a seller-order leave less than k/2 paise of each tax. Every odd k from
  three on has a run that reaches the bound: three thirds of the gross can leave a paisa of tax for good
  (`TcsLedgerLosses.EqualPartsLeaveAll`).
- Grievances: a ticket's deadline counts from the moment of filing until an assignment re-prices it,
  then from the row's creation; it is the deadline from creation exactly when that is where it was
  last computed from, or when filing and creation coincide. An assignment that read the ticket before
  the re-pricing takes both back when it is written (`GrievanceProofs.AssignmentUndoes`,
  `GrievanceProofs.RepricingUndone`). Assigning a RESOLVED ticket passes the check and is then aborted
  by the guard. A reply or response begun before a closure still adds its message to the closed ticket.
  A late writer can move the recorded first response.
- Rules: the comment in `src/modules/ecommerce/catalog-rules/rule.types.ts` says the two evaluators never
  drift. They agree on a condition exactly when `RulesProofs.Faithful` holds: the filter treats strict
  age comparisons as loose ones, drops the other operators on age, and SQL leaves out rows without a
  category or brand under "not equal". They part on a rule exactly when some condition is unfaithful
  for the product, the faithful ones leave the decision open, and the unfaithful ones are all on age,
  where the query selects too much, or all on category or brand, where it selects too little
  (`RulesProofs.CompiledRuleExactly`). With no rule at all the query is unconstrained and the
  predicate refuses.
- Newsletter: everyone has one turn in a paging loop, the read at which the cursor is about to pass
  them. Those who are not active then, and those who come first after a cursor whose own subscriber
  has stopped being active, end the loop without a row of it; nobody else does
  (`NewsletterPaging.WhoEndsWithoutARow`).
- Categories: two moves that are both checked before either is written close a cycle exactly when
  each category goes into the other's subtree (`Category.RacingMoves`). The shop filter's
  counts hold every product exactly when no walk meets a deleted category and each stops at an
  active one (`Category.FindShopFilterCategories`).
- Erasure: nobody is erased before one of their requests has come due and been listed. But the claim
  is by user and does not look at dates. It takes a request that is not due only if the listed one
  has left grace since it was listed, or the user has two in grace (`Privacy.EarlyClaim`); without
  asks that overtake each other only the first can happen (`Privacy.AloneClaim`), as when a listed
  user cancels and asks again (`Privacy.AskAgainIsErasedEarly`). A reported cancel
  leaves the user another request in grace exactly when there were two (`Privacy.CancelLeavesAnother`),
  and only overtaking asks open two (`Privacy.SecondInGrace`).
- Number words: the code puts a capital on the first word, which the examples in its comment do not
  show; below zero the rupees are rounded away from zero and the paise complemented.

## Model

| member | source | states |
|---|---|---|
| `TcsLedgerProofs.RunSound` | src/modules/compliance/tcs/tcs.service.ts:134-354 | after any sequence of accruals and refunds, retried and in any order, every seller-order's accrual plus reversals lies between 0 and the accrual in each of CGST, SGST, IGST and taxable value; keys are unique and signs right |
| `TcsLedgerProofs.ReverseSound` | src/modules/compliance/tcs/tcs.service.ts:216-354 | one refund keeps every balance between 0 and the accrual |
| `TcsLedgerProofs.AccrueSound` | src/modules/compliance/tcs/tcs.service.ts:134-199 | an accrual keeps the ledger sound |
| `TcsLedgerProofs.AccrueOnce` | src/modules/compliance/tcs/tcs.service.ts:182-199 | the first accrual of a seller-order stands; a later one, with whatever items and month, writes nothing |
| `TcsLedgerAmounts.AccrualIs` | src/modules/compliance/tcs/tcs.service.ts:134-199 | the row that is accrued: the order's seller and store, the month, all taxable value of its items and shipping, and one percent of it in tax, rounded, in equal halves within a state; nothing without a recognised regime or a positive base |
| `TcsLedgerAmounts.ReversalsNameTheirAccrual` | src/modules/compliance/tcs/tcs.service.ts:282-349 | every row a refund adds is for an order in scope, names the refund and the month, and carries the seller, store, rate and regime of the accrual it takes from |
| `TcsLedgerProofs.SplitIsOnePercent` | src/modules/compliance/tcs/tcs.service.ts:823-840 | the split never mixes the intra-state and inter-state regimes and stays within a paisa of one percent |
| `TcsLedgerProofs.BalanceIsAccruedPlusPrior` | src/modules/compliance/tcs/tcs.service.ts:236-266 | what the clamp computes from other refunds' rows is the remaining balance, while the refund has no row of its own |
| `TcsLedgerProofs.MagnitudeWithinBalance` | src/modules/compliance/tcs/tcs.service.ts:258-323 | a reversed amount is the smaller of the rounded slice and the remaining balance, and never negative |
| `TcsLedgerCoverage.ReverseTakes` | src/modules/compliance/tcs/tcs.service.ts:282-349 | a first reversal lowers an order's balance by exactly the capped, rounded and clamped share |
| `TcsLedgerAmounts.ScopedRefundTakes` | src/modules/compliance/tcs/tcs.service.ts:236-349 | a first refund of n paise scoped to a seller-order takes of each column the part, rounded, that n is of subtotal + tax + shipping - discount, as far as there is a balance; all of it takes everything |
| `TcsLedgerAmounts.OrderRefundTakes` | src/modules/compliance/tcs/tcs.service.ts:236-349 | a first refund of n paise of a whole order takes of every seller-order in it the part that n is of those columns added up over the order |
| `TcsLedgerAmounts.NothingToTake` | src/modules/compliance/tcs/tcs.service.ts:282-295 | nothing is taken for a seller-order out of scope or for which nothing was paid, nor by a refund of nothing |
| `TcsLedgerCoverage.RetryWritesNothing` | src/modules/compliance/tcs/tcs.service.ts:205-215 | repeating a refund with the same scope and amount, in any month, writes nothing |
| `TcsLedgerRepeats.ReverseEffect` | src/modules/compliance/tcs/tcs.service.ts:216-354 | one call on every order of any sound ledger: the rows there stay, and a balance falls by the clamped share where the order is in scope, has an accrual, and the refund has no row on it, and nowhere else |
| `TcsLedgerRepeats.RescopedRetry` | src/modules/ecommerce/returns/returns.service.ts:681-701 | a second call under the same refund id with another scope or amount: no order is reversed twice; an order the first call gave a row keeps its balance, any other ends as if the second call were the only one |
| `TcsLedgerCoverage.CoveringRefunds` | src/modules/compliance/tcs/tcs.service.ts:268-349 | k distinct refunds whose shares cover the gross leave less than k/2 units in every column: nothing for one or two refunds |
| `TcsLedgerCoverage.RefundsCoveringGross` | src/modules/compliance/tcs/tcs.service.ts:268-349 | the same in amounts: refunds scoped to the seller-order whose amounts reach its gross |
| `TcsLedgerCoverage.OrderRefundsCoveringGross` | src/modules/compliance/tcs/tcs.service.ts:268-349 | the same for refunds of a whole order whose amounts reach its total: every seller-order in scope is covered |
| `TcsLedgerCoverage.OrderSharesCover` | src/modules/compliance/tcs/tcs.service.ts:288-299 | refunds of a whole order cover a seller-order in it if and only if their amounts reach the order's total |
| `TcsLedgerCoverage.ScopedSharesCover` | src/modules/compliance/tcs/tcs.service.ts:288-299 | refunds scoped to one seller-order cover it if and only if their amounts reach its gross |
| `TcsLedgerCoverage.ShareOfAmount` | src/modules/compliance/tcs/tcs.service.ts:288-299 | a pro-rata share of the order total is the same fraction as a scoped share of the gross |
| `TcsLedgerLosses.EqualPartsLeaveAll` | src/modules/compliance/tcs/tcs.service.ts:297-323 | the bound is reached: on a ledger that accrued m paise of CGST, 2m + 1 refunds of equal parts that add up to the gross leave all m |
| `TcsService.Service.AccrueOrder` | src/modules/compliance/tcs/tcs.service.ts:134-199 | the loop and insert add exactly the specified accrual row, or nothing |
| `TcsService.Service.ReverseRefund` | src/modules/compliance/tcs/tcs.service.ts:216-354 | the loops and insert add exactly the specified reversal rows |
| `TcsService.Service.Propose` | src/modules/compliance/tcs/tcs.service.ts:282-348 | the body of the loop yields the specified candidate row, or none |
| `TcsService.Service.CreateMany` | src/modules/compliance/tcs/tcs.service.ts:351-353 | rows with a taken key are skipped, the others appended in order |
| `TcsService.Service.NetForSellerOrders` | src/modules/compliance/tcs/tcs.service.ts:365-385 | the floor at zero changes no value of a sound ledger: each order nets to its balances |
| `TcsReports.SuppliersTieOut` | src/modules/compliance/tcs/tcs.service.ts:546-602 | the suppliers' tax columns add up to the period summary exactly |
| `TcsReports.ReportedColumns` | src/modules/compliance/tcs/tcs.service.ts:400-420 | the summary and each supplier line are the sums over all ledger rows of the period, and of the supplier; a supplier has a line if and only if it has a row in the period |
| `TcsReports.TaxableValuesTieOut` | src/modules/compliance/tcs/tcs.service.ts:400-420 | n suppliers' taxable values differ from the summary by at most (n+1)/2 paise |
| `TcsReports.BucketsAddUp` | src/modules/compliance/tcs/tcs.service.ts:649-706 | the rate and place buckets, before rounding, add up to the grand totals under every heading |
| `TcsReports.SuppliesAre` | src/modules/compliance/tcs/tcs.service.ts:672-706 | there is one supply for each item of each order, under its order's regime and place and the rate that the regime charges |
| `TcsReports.BucketTaxedAtItsRate` | src/modules/compliance/tcs/tcs.service.ts:672-706 | if every item is taxed at its rate to within e, a bucket of n items is taxed at the bucket's rate to within n times e |
| `TcsReports.ExportedBucketsTieOut` | src/modules/compliance/tcs/tcs.service.ts:725-743 | the n exported buckets, each rounded to paise, add up to within (n + 1)/2 paise of the exported summary under every heading |
| `TcsReports.OneMoreSupply` | src/modules/compliance/tcs/tcs.service.ts:675-705 | one item added to its bucket and to the grand total keeps both right |
| `TcsService.BuildGstr1` | src/modules/compliance/tcs/tcs.service.ts:672-706 | the loops compute the buckets and the grand totals of all items |
| `CouponProofs.AllotmentsAddUp` | src/modules/ecommerce/coupon/coupon.service.ts:507-530 | the store shares add up to the discount exactly |
| `CouponProofs.ShareNearProportion` | src/modules/ecommerce/coupon/coupon.service.ts:518-530 | each store but the last is within half a paisa of its proportion, the last within half a paisa for each other store |
| `CouponProofs.ShareOutright` | src/modules/ecommerce/coupon/coupon.service.ts:507-530 | in whole numbers: share times subtotal is discount times store subtotal, to within half a subtotal, or half of one for each other store when it is the last |
| `CouponExtremes.NegativeShare` | src/modules/ecommerce/coupon/coupon.service.ts:518-530 | a share is negative if and only if it is the last store's and the other shares exceed the discount |
| `CouponExtremes.NoNegativeShare` | src/modules/ecommerce/coupon/coupon.service.ts:518-530 | no share is negative when the last of n stores is due at least (n - 1)/2 paise |
| `CouponExtremes.FourStoresShares` | src/modules/ecommerce/coupon/coupon.service.ts:518-530 | a cart on which the last share is -1 |
| `CouponProofs.LinesTakeTheShare` | src/modules/ecommerce/coupon/coupon.service.ts:536-560 | the line discounts of a store add up to its share |
| `CouponProofs.LineOutright` | src/modules/ecommerce/coupon/coupon.service.ts:536-560 | a line that is not its store's last takes of the store's share what it is of the store's subtotal, to within half a paisa |
| `CouponProofs.ExcessIsBounded` | src/modules/ecommerce/coupon/coupon.service.ts:546-564 | what the clamp at zero forgives in all is at most half a paisa for each line but one |
| `CouponExtremes.ExcessBoundReached` | src/modules/ecommerce/coupon/coupon.service.ts:546-564 | for every even number of lines a cart and a discount reach that bound |
| `CouponProofs.PreTaxCharge` | src/modules/ecommerce/coupon/coupon.service.ts:560-566 | the amount charged before tax lies between subtotal less discount and that plus half a paisa for each line but one, and is the former if and only if no line is clamped |
| `CouponProofs.SingleRateTotal` | src/modules/ecommerce/coupon/coupon.service.ts:560-566 | with one tax rate the total is the sum of the net lines, taxed and rounded once |
| `CouponProofs.SingleRateCharge` | src/modules/ecommerce/coupon/coupon.service.ts:560-566 | with one tax rate the total is the rounded (subtotal - discount)(1 + r), however the drift fell, if and only if no line is clamped; clamped lines raise it at most by the taxed excess |
| `CouponProofs.FullDiscountIsFree` | src/modules/ecommerce/coupon/coupon.service.ts:507-566 | a discount of the whole subtotal makes every line and the total 0 |
| `CouponProofs.OverAllotment` | src/modules/ecommerce/coupon/coupon.service.ts:518-530 | the stores' shares exceed their subtotals by at most half a paisa for each store but one, in all |
| `CouponService.DiscountWithinSubtotal` | src/modules/ecommerce/coupon/coupon.service.ts:481-499 | the rounded discount exceeds the subtotal if and only if a percentage above 100 adds at least half a paisa and no cap stays below that; never for a well-formed coupon |
| `CouponService.DiscountAsPromised` | src/modules/ecommerce/coupon/coupon.service.ts:481-499 | a fixed amount discounts itself up to the subtotal; a percentage discounts that part of the subtotal to the nearest paisa, up to its cap |
| `CouponService.NothingToExplain` | src/modules/ecommerce/coupon/coupon.service.ts:388-480 | a redeemable coupon gives none of the reasons to refuse it |
| `CouponService.PriceAtOneRate` | src/modules/ecommerce/coupon/coupon.service.ts:507-566 | at one tax rate the undiscounted price is the taxed subtotal |
| `CouponService.StoreSubtotals` | src/modules/ecommerce/coupon/coupon.service.ts:510-517 | the Map holds every store of the cart with its subtotal |
| `CouponService.AllocateToStores` | src/modules/ecommerce/coupon/coupon.service.ts:518-530 | the loop gives portions and lets the last store take the remainder |
| `CouponService.PriceLines` | src/modules/ecommerce/coupon/coupon.service.ts:536-566 | the loop prices every line by the specified split and rounds the total once |
| `CouponService.LineDiscount` | src/modules/ecommerce/coupon/coupon.service.ts:541-559 | the three branches: remainder, proportional part, nothing |
| `CouponService.Apportion` | src/modules/ecommerce/coupon/coupon.service.ts:507-567 | shares, priced lines and total together; the shares add up to the discount |
| `CouponService.CouponTable.Create` | src/modules/ecommerce/coupon/coupon.service.ts:151-190 | refuses exactly an empty window, a percentage above 100 and a used code; keeps every row well-formed |
| `CouponService.CouponTable.Update` | src/modules/ecommerce/coupon/coupon.service.ts:192-237 | checks the merged row, so a change of type or of value alone is caught |
| `CouponService.MergedColumns` | src/modules/ecommerce/coupon/coupon.service.ts:192-237 | an update changes the columns it names to what it says, keeps the others, and never revives a row |
| `CouponService.DeletedForGood` | src/modules/ecommerce/coupon/coupon.service.ts:192-256 | over any later creations, updates and deletions a deleted coupon keeps its row: its code is not reused, it is not updated, and no cart redeems it |
| `CouponService.TableWellFormed` | src/modules/ecommerce/coupon/coupon.service.ts:151-256 | every row that creations, updates and deletions can produce is well-formed |
| `CouponService.CouponTable.ValidateAndCompute` | src/modules/ecommerce/coupon/coupon.service.ts:388-590 | accepts exactly the redeemable coupons; an accepted one has the discount its type, value and cap promise, 0 < discount <= subtotal, every store's share, and the specified total, and no reason to refuse it holds; a rejection leaves the price, and its reason holds |
| `Resilience.BackoffDelay` | src/common/http/with-resilience.ts:191-198 | full jitter: random times the ceiling, rounded down; below the ceiling |
| `Resilience.DelayIsFullJitter` | src/common/http/with-resilience.ts:191-198 | the same with the ceiling written out as min(maxDelay, baseDelay * 2^attempt); so a random number of a half or more waits at least half the ceiling |
| `Resilience.WithResilience` | src/common/http/with-resilience.ts:208-248 | invokes until the first success, first error not worth retrying, or retries + 1 calls; the pause after attempt i is the full jitter of random(i) under the ceiling of i |
| `OutboxProofs.EveryRunConsistent` | src/modules/outbox/outbox-relay.service.ts:58-149 | every interleaving: a row exists for exactly the committed requests that are first with their key; DONE means a handler succeeded; FAILED means an unregistered queue or eight failed runs; every handler run is accounted for |
| `OutboxProofs.AccountedStep` | src/modules/outbox/outbox-execution.service.ts:51-137 | every step keeps an event's books, whatever is in flight |
| `OutboxProofs.InsertRows` | src/modules/outbox/outbox.service.ts:37-54 | a skipped or inserted request keeps rows and committed requests in step |
| `OutboxProofs.PathToDispatch` | src/modules/outbox/outbox-relay.service.ts:77-149 | an event that is not final can always reach its queue, or be parked if its queue is unknown |
| `OutboxProofs.FinalExactlyWhenQuiet` | src/modules/outbox/outbox-execution.service.ts:51-137 | a final status survives every continuation if and only if nothing that can write the row is in flight |
| `OutboxProofs.LateFailureRevives` | src/modules/outbox/outbox-execution.service.ts:88-132 | a concrete run in which a late failure turns DONE into PENDING |
| `OutboxTimely.EveryTimelyRun` | src/modules/outbox/outbox-execution.service.ts:51-137 | if nothing outlives the stale window, no run of an event starts while another is in progress or after the job has its outcome, and no add reported as failed took effect: DONE and FAILED rows are never written or run again, at most eight attempts, at most one success, at most eight runs plus one per crash |
| `OutboxTimely.OverlappingRunsRevive` | src/modules/outbox/outbox-execution.service.ts:51-132 | the condition on runs in progress is needed: at one moment, a job served twice at once turns DONE into PENDING |
| `OutboxTimely.InStepNext` | src/modules/outbox/outbox-relay.service.ts:72-149 | a timely step keeps at most one relay, job or run busy with an event, and its columns exact |
| `OutboxTimely.FinalNext` | src/modules/outbox/outbox-execution.service.ts:51-86 | no timely step writes or runs a final event |
| `OutboxTimely.RunsBounded` | src/modules/outbox/outbox-execution.service.ts:88-132 | handler runs are bounded by attempts and crashes, exactly so for parked and done events |
| `OutboxTimely.RetrySchedule` | src/modules/outbox/outbox-execution.service.ts:44-137 | a retry waits random times 1000 * 2^a ms, rounded down, which is less than 64 seconds, and is not claimed earlier |
| `OutboxTimely.RetryCeilingIs` | src/modules/outbox/outbox-execution.service.ts:120-128 | the ceiling of a retry is a second, doubled for each attempt before, and at most five minutes |
| `OutboxService.BatchIsARun` | src/modules/outbox/outbox-relay.service.ts:91-149 | a batch claimed at once and added is a run of single steps with the same rows |
| `OutboxService.ReclaimIsARun` | src/modules/outbox/outbox-relay.service.ts:72-89 | reclaiming every stale row at once is a run of single steps with the same rows |
| `OutboxService.TickIsARun` | src/modules/outbox/outbox-relay.service.ts:58-149 | a whole tick of the relay is a run of single steps with the same rows, so what every run keeps holds of the relay's methods |
| `OutboxService.ProcessIsARun` | src/modules/outbox/outbox-execution.service.ts:51-86 | a job on a row that is not DONE is a run of one handler, started and then settled, with the same rows |
| `OutboxService.InsertIsEnqueue` | src/modules/outbox/outbox.service.ts:37-54 | a committed request enters the transition system as the method puts it in the table |
| `OutboxService.KeysStayUnique` | src/modules/outbox/outbox.service.ts:30-54 | in every run at most one row carries a key |
| `OutboxService.EventTable.Enqueue` | src/modules/outbox/outbox.service.ts:37-54 | however often a key is enqueued exactly one row carries it; a new row is PENDING, due at once, with eight attempts; rows already there, and other keys, are never touched |
| `OutboxService.EventTable.ReclaimStale` | src/modules/outbox/outbox-relay.service.ts:72-89 | afterwards no row is stale; exactly the stale ones have changed, to PENDING, and only in status and time stamp |
| `OutboxService.EventTable.DispatchBatch` | src/modules/outbox/outbox-relay.service.ts:91-149 | a claimed row is parked exactly for a queue that is none of the four, returned exactly if its add was rejected, and else left to a worker; only status and time stamp change, and exactly the accepted jobs join the queue |
| `OutboxService.EventTable.Relay` | src/modules/outbox/outbox-relay.service.ts:58-149 | a tick reclaims and then dispatches, and adds exactly the jobs of the batch's registered and accepted rows; one that finds another running does nothing |
| `OutboxService.EventTable.OnFailure` | src/modules/outbox/outbox-execution.service.ts:88-132 | counts from the loaded attempts; parks at the maximum, else reschedules by the full jitter under the ceiling; no other column changes |
| `OutboxService.EventTable.Process` | src/modules/outbox/outbox-execution.service.ts:51-86 | an undisturbed job runs exactly for a row that is not DONE |
| `GrievanceProofs.EveryRunSound` | src/modules/compliance/grievance/grievance.service.ts:104-620 | every interleaving of operations on stale reads: statuses walk the transition table, resolvedAt is set iff RESOLVED or CLOSED, closedAt iff CLOSED, a first response is never forgotten, the deadline is the priority's, and a closed row is frozen |
| `GrievanceProofs.TransactGood` | src/modules/compliance/grievance/grievance.service.ts:191-600 | one transaction, decided on any earlier snapshot, keeps stamps, path and deadline right |
| `GrievanceProofs.TransactGoesForward` | src/modules/compliance/grievance/grievance.service.ts:191-600 | one transaction only extends the path and thread, and leaves a closed row as it is but for its thread |
| `GrievanceProofs.TransactIsAnEdge` | src/modules/compliance/grievance/grievance.constants.ts:58-86 | a status changes along one edge of the table, and the thread says so |
| `GrievanceProofs.TransactSays` | src/modules/compliance/grievance/grievance.service.ts:191-600 | what each operation adds to the thread, by role and visibility |
| `GrievanceProofs.PublicGrows` | src/modules/compliance/grievance/grievance.service.ts:191-600 | one step of any state: the thread as the customer sees it grows if and only if a reply, a public response, or a resolution, closure or escalation that took effect is committed |
| `GrievanceProofs.PublicThread` | src/modules/compliance/grievance/grievance.service.ts:960-975 | over every run: what the customer has seen stays, and there is more to see if and only if some such operation was committed |
| `GrievanceProofs.EscalationIs` | src/modules/compliance/grievance/grievance.service.ts:581-601 | an escalation, column by column |
| `GrievanceProofs.DeadlineFromCreation` | src/modules/compliance/grievance/grievance.service.ts:108-126 | every reachable ticket: its deadline is its priority's from creation if and only if it was last computed from there, or no time passed between filing and creation |
| `GrievanceProofs.AssignmentUndoes` | src/modules/compliance/grievance/grievance.service.ts:333-351 | an assignment puts a re-priced deadline back to filing, and a priority back to an old one, exactly when it is written, re-prices nothing itself and read the ticket before |
| `GrievanceProofs.RepricingUndone` | src/modules/compliance/grievance/grievance.service.ts:333-379 | a run in which that happens |
| `GrievanceProofs.AdmittedTakesEffect` | src/modules/compliance/grievance/grievance.service.ts:333-360 | an operation admitted on the row itself takes effect as asked, except that assigning a RESOLVED ticket passes the check and is aborted by the guard |
| `GrievanceProofs.LateMessage` | src/modules/compliance/grievance/grievance.service.ts:209-220 | a closed ticket changes exactly under replies and responses, and none is admitted on a fresh read |
| `GrievanceProofs.FirstResponseMoves` | src/modules/compliance/grievance/grievance.service.ts:419-435 | exactly when a recorded first response is moved |
| `GrievanceReport.ExactBalance` | src/modules/compliance/grievance/grievance.service.ts:632-679 | for any rows: opening + received = resolved + pending, up to exactly the rows whose stamps run backwards |
| `GrievanceReport.ReachableBalance` | src/modules/compliance/grievance/grievance.service.ts:632-679 | for every ledger the operations can produce and every month: opening + received = resolved + pending |
| `GrievanceReport.MonthsTelescope` | src/modules/compliance/grievance/grievance.service.ts:69-72 | over any run of consecutive months the identity telescopes |
| `GrievanceReport.TallyResolved` | src/modules/compliance/grievance/grievance.service.ts:681-689 | the loop counts the breaches and adds the hours |
| `GrievanceReport.BuildMonthlyComplianceReport` | src/modules/compliance/grievance/grievance.service.ts:632-723 | every count of the report, the breaches within the resolved, when the rates are null, and breakdowns by category and status that count each received ticket once |
| `GrievanceReport.BacklogMeans` | src/modules/compliance/grievance/grievance.service.ts:639-663 | the backlog counts the rows created before the moment and not resolved before it |
| `GrievanceReport.ReceivedMeans` | src/modules/compliance/grievance/grievance.service.ts:647-647 | received counts the rows created in the month |
| `GrievanceReport.ResolvedMeans` | src/modules/compliance/grievance/grievance.service.ts:664-667 | resolved counts the rows resolved in the month |
| `GrievanceReport.ClosedMeans` | src/modules/compliance/grievance/grievance.service.ts:648-648 | closed counts the rows closed in the month |
| `GrievanceReport.EscalatedMeans` | src/modules/compliance/grievance/grievance.service.ts:649-649 | escalated counts the rows escalated in the month |
| `GrievanceReport.LateMeans` | src/modules/compliance/grievance/grievance.service.ts:681-686 | breached counts the rows resolved in the month after their deadline |
| `GrievanceReport.BreakdownsMean` | src/modules/compliance/grievance/grievance.service.ts:668-679 | the breakdowns count the rows received by their own category and status |
| `GrievanceReport.RoundedMeans` | src/modules/compliance/grievance/grievance.service.ts:690-697 | mean and rate are rounded to the nearest hundredth |
| `GrievanceReport.HoursAreMs` | src/modules/compliance/grievance/grievance.service.ts:687-688 | the hours add up the milliseconds from creation to resolution |
| `GrievanceReport.ComplianceRate` | src/modules/compliance/grievance/grievance.service.ts:692-695 | between 0 and 100 percent, 100 without breaches and 0 when all are |
| `GrievanceReport.MeanHoursNonNegative` | src/modules/compliance/grievance/grievance.service.ts:687-691 | the mean resolution time of reachable rows is never negative |
| `GrievanceReport.BreakdownAddsUp` | src/modules/compliance/grievance/grievance.service.ts:667-678 | a breakdown by any column has an entry for exactly the values received, counts each, and adds up to what was received |
| `GrievanceService.TicketTable.FileGrievance` | src/modules/compliance/grievance/grievance.service.ts:104-144 | the new row: OPEN, one public message of the customer, 48 hours for data privacy and 72 for the rest |
| `GrievanceService.TicketTable.Check` | src/modules/compliance/grievance/grievance.service.ts:191-212 | which operations are admitted, by status, author, length and deadline |
| `GrievanceService.TicketTable.ReplyToGrievance` | src/modules/compliance/grievance/grievance.service.ts:215-241 | appends a public message of the customer, and re-opens, clears the resolution and says so in public exactly for a row that was and still is RESOLVED; no other column changes |
| `GrievanceService.TicketTable.AssignGrievance` | src/modules/compliance/grievance/grievance.service.ts:333-379 | writes assignee, priority and its deadline, and one internal message, under the guard of the snapshot's status, or aborts and changes nothing |
| `GrievanceService.TicketTable.RespondToGrievance` | src/modules/compliance/grievance/grievance.service.ts:410-445 | appends exactly one message of the officer, internal or public as asked; records a first response and moves OPEN on only when public and guarded; no other column changes |
| `GrievanceService.TicketTable.ResolveGrievance` | src/modules/compliance/grievance/grievance.service.ts:465-485 | resolves exactly a row that is neither RESOLVED nor CLOSED, with note, stamps and one public message of the officer |
| `GrievanceService.TicketTable.CloseGrievance` | src/modules/compliance/grievance/grievance.service.ts:524-536 | closes exactly a RESOLVED row, with its stamp and one public message |
| `GrievanceService.TicketTable.ApplyEscalation` | src/modules/compliance/grievance/grievance.service.ts:581-601 | true exactly when this call performed the flip |
| `GrievanceService.TicketTable.RunSlaEscalation` | src/modules/compliance/grievance/grievance.service.ts:549-574 | escalates and counts exactly the listed tickets still open, and leaves every other ticket |
| `RulesProofs.CompiledRuleExactly` | src/modules/ecommerce/catalog-rules/rule-engine.ts:40-197 | for every accepted rule, under ALL and ANY, and every product: the query selects what the predicate refuses, or leaves out what it accepts, if and only if some condition is unfaithful, the faithful ones leave the decision open, and the unfaithful ones are all on age, or all off it |
| `RulesProofs.CompiledRuleAgrees` | src/modules/ecommerce/catalog-rules/rule-engine.ts:40-173 | so the two agree where each condition is faithful |
| `RulesProofs.OneSided` | src/modules/ecommerce/catalog-rules/rule-engine.ts:40-197 | without a "not equal" on category or brand every accepted product is selected; without a condition on age every selected product is accepted |
| `RulesProofs.UnfaithfulErrs` | src/modules/ecommerce/catalog-rules/rule-engine.ts:58-66 | an unfaithful condition on age is selected and refused, any other unfaithful one accepted and left out |
| `RulesProofs.ConditionMeans` | src/modules/ecommerce/catalog-rules/rule-engine.ts:141-197 | an accepted condition holds of a product exactly if it is meant to, in terms of the payload of its value: days of 86400000 ms, unknown prices and ids, lists of ids |
| `RulesProofs.RuleMeans` | src/modules/ecommerce/catalog-rules/rule-engine.ts:130-197 | for every accepted rule the predicate accepts exactly the products of which all, or any, conditions hold as they are meant |
| `RulesProofs.QueryMeans` | src/modules/ecommerce/catalog-rules/rule-engine.ts:40-110 | for every accepted rule the query selects exactly the products of which all, or any, conditions hold as they are meant, a condition that is not faithful counting as yes on age and as no off it |
| `RulesProofs.ConditionAgrees` | src/modules/ecommerce/catalog-rules/rule-engine.ts:49-173 | one accepted condition: the two answers agree if and only if it is faithful for the product |
| `RulesProofs.SingleConditionExactly` | src/modules/ecommerce/catalog-rules/rule-engine.ts:40-140 | the same for a rule with one condition, under ALL and ANY |
| `RulesProofs.AgeAgrees` | src/modules/ecommerce/catalog-rules/rule-engine.ts:58-66 | for every operator on age, exactly when the boundary of the filter matches the comparison of ages |
| `RulesProofs.NoRuleParts` | src/modules/ecommerce/catalog-rules/rule-engine.ts:44-135 | without a rule the query is unconstrained and the predicate refuses |
| `RulesProofs.WhereRulesDrift` | src/modules/ecommerce/catalog-rules/rule-engine.ts:117-197 | two accepted rules and a product on which the evaluators part |
| `RulesProofs.AcceptsExactly` | src/modules/ecommerce/catalog-rules/rule-engine.ts:207-253 | validation accepts exactly the JSON that says a well-typed rule, and returns that rule |
| `RulesProofs.WellTypedMeans` | src/modules/ecommerce/catalog-rules/rule-engine.ts:225-250 | a value must be a boolean, a number, or for an id a string, and under "in" a list of strings |
| `RulesProofs.Names` | src/modules/ecommerce/catalog-rules/rule.types.ts:1-60 | the names under which JSON says fields, operators and modes |
| `RulesProofs.RejectsTheFirst` | src/modules/ecommerce/catalog-rules/rule-engine.ts:219-251 | a rejected condition is the first that says nothing |
| `RulesProofs.ValidationIdempotent` | src/modules/ecommerce/catalog-rules/rule-engine.ts:207-253 | what was accepted is accepted again, unchanged |
| `RulesProofs.NothingIsConverted` | src/modules/ecommerce/catalog-rules/rule-engine.ts:49-84 | on accepted conditions neither evaluator depends on conversions between types |
| `RulesProofs.AllIsForall` | src/modules/ecommerce/catalog-rules/rule-engine.ts:45-46 | an AND of filters is true exactly when each is, unknowns included |
| `RulesProofs.AnyIsExists` | src/modules/ecommerce/catalog-rules/rule-engine.ts:45-46 | an OR of filters is true exactly when one is |
| `Newsletter.FanoutCompletes` | src/modules/cms/newsletter/newsletter.service.ts:366-497 | any sends, handlers side by side, crashes between batches, redeliveries and deliveries: at most one fan-out is owed, and once a handler has finished there is one row per subscriber, one event per consenting one and none for others, and counts that add up |
| `Newsletter.OrderlyStep` | src/modules/cms/newsletter/newsletter.service.ts:366-591 | every single step keeps rows, events and counts in order, and a finished campaign finished |
| `Newsletter.SentExactlyWhenSent` | src/modules/cms/newsletter/newsletter.service.ts:411-591 | over every run a row says SENT if and only if a delivery of it was sent |
| `Newsletter.CanStillComplete` | src/modules/cms/newsletter/newsletter.service.ts:411-497 | from any point of a campaign that has been sent a handler can run to its end and complete it |
| `Newsletter.DispatchIsARun` | src/modules/cms/newsletter/newsletter.service.ts:411-497 | a call that crashes or completes is a run of one handler, and leaves the campaign as the method does |
| `Newsletter.FullLedger` | src/modules/cms/newsletter/newsletter.service.ts:464-496 | recipientCount = sentCount + skippedCount, and each is the number it names |
| `Newsletter.PageAfter` | src/modules/cms/newsletter/newsletter.service.ts:420-426 | a page after an active cursor is the next stretch of the list |
| `Newsletter.LostCursorSkipsOne` | src/modules/cms/newsletter/newsletter.service.ts:420-426 | a page after a cursor that is no longer active leaves out one subscriber |
| `NewsletterPaging.WhoEndsWithoutARow` | src/modules/cms/newsletter/newsletter.service.ts:418-462 | over a whole loop, whatever list each page is read from: exactly those end without a row who had none and, at their one turn, are not active or come first after a cursor that is not active |
| `NewsletterPaging.StayersMissed` | src/modules/cms/newsletter/newsletter.service.ts:418-462 | of those active at every read exactly the ones passed over at their turn are missed |
| `NewsletterPaging.InPage` | src/modules/cms/newsletter/newsletter.service.ts:420-426 | a page holds exactly the active subscribers beyond its cursor up to its last, the one passed over aside, and is empty only if there are none |
| `NewsletterPaging.LeaverHidesNext` | src/modules/cms/newsletter/newsletter.service.ts:418-462 | a loop in which a subscriber active throughout ends without a row |
| `Newsletter.CampaignService.FilterMarketableRecipients` | src/modules/cms/newsletter/newsletter.service.ts:203-218 | keeps exactly the addresses without an account or whose account consents |
| `Newsletter.MarketableMeans` | src/modules/cms/newsletter/newsletter.service.ts:203-218 | an address may be mailed exactly if it has no account or the latest decision of its account's user is a consent |
| `Newsletter.LatestDecisionCounts` | src/modules/cms/newsletter/newsletter.service.ts:203-218 | a user consents exactly if the latest of their decisions grants it |
| `Newsletter.CampaignService.WriteBatch` | src/modules/cms/newsletter/newsletter.service.ts:429-459 | a batch writes each missing row and each kept subscriber's event |
| `Newsletter.CampaignService.FanOut` | src/modules/cms/newsletter/newsletter.service.ts:418-462 | the paging loop visits each subscriber once, in batches of 200, and ends |
| `Newsletter.CampaignService.DispatchCampaign` | src/modules/cms/newsletter/newsletter.service.ts:411-497 | a handler run up to its crash or completion; a finished campaign is left alone |
| `Newsletter.CampaignService.DeliverCampaignEmail` | src/modules/cms/newsletter/newsletter.service.ts:512-591 | the row becomes SKIPPED if the subscriber is gone or does not consent, SENT if the mail is sent, and else stays; no other row changes |
| `Newsletter.FanningDelivery` | src/modules/cms/newsletter/newsletter.service.ts:540-633 | a delivery adds and removes no row or event and skips no kept recipient, so the counts stay right |
| `SoftDelete.SequenceSimulates` | src/prisma/prisma.service.ts:96-180 | any sequence of plain commands that never creates or deletes under a tombstone's key is answered as by a table that removes rows |
| `SoftDelete.Simulates` | src/prisma/prisma.service.ts:115-178 | the same for one command, and the visible rows are the removing table's |
| `SoftDelete.TombstonesShow` | src/prisma/prisma.service.ts:157-175 | a plain command is answered alike if and only if it does not create or delete under a tombstone's key |
| `SoftDelete.SameMatches` | src/prisma/prisma.service.ts:96-101 | a filtered query finds exactly the visible matches |
| `SoftDelete.MatchesMeans` | src/prisma/prisma.service.ts:96-101 | what a filter asks of each column it names |
| `SoftDelete.LookupLive` | src/prisma/prisma.service.ts:130-153 | findUnique with or without a select finds exactly the visible row, with the columns asked for |
| `SoftDelete.LookupLeaks` | src/prisma/prisma.service.ts:136-142 | a tombstone is returned exactly when the select names deletedAt only to leave it out |
| `SoftDelete.Client.AllOperations` | src/prisma/prisma.service.ts:115-178 | a plain command that meets no tombstone is answered as by a table that removes rows and leaves what that table would hold visible; a delete only dates deletedAt; no row ever leaves the table |
| `SoftDelete.Client.FindLive` | src/prisma/prisma.service.ts:136-152 | finds exactly the visible row with exactly the columns asked for; a tombstone comes back only for a select that names deletedAt to leave it out |
| `Category.CategoryTree.Create` | src/modules/ecommerce/category/category.service.ts:16-28 | a new category under an existing parent or none keeps the forest |
| `Category.CategoryTree.Update` | src/modules/ecommerce/category/category.service.ts:267-305 | a move is made if and only if the result is acyclic; the unbounded walk ends |
| `Category.CategoryTree.Remove` | src/modules/ecommerce/category/category.service.ts:307-312 | removal leaves the parent relation alone |
| `Category.MoveKeepsRank` | src/modules/ecommerce/category/category.service.ts:276-291 | moving a category to a parent outside its subtree keeps a ranking |
| `Category.MoveBelowCycles` | src/modules/ecommerce/category/category.service.ts:284-290 | moving it inside its subtree leaves no ranking at all |
| `Category.RacingMoves` | src/modules/ecommerce/category/category.service.ts:276-305 | two moves that each pass the check close a cycle together if and only if each goes into the other's subtree |
| `Category.RacingMovesCycle` | src/modules/ecommerce/category/category.service.ts:276-305 | the smallest case: each under the other |
| `Category.CountByRoot` | src/modules/ecommerce/category/category.service.ts:74-86 | the counts per root hold each category's products once: they add up to all of them |
| `Category.FindRoot` | src/modules/ecommerce/category/category.service.ts:78-84 | the loop of at most fifteen steps is the bounded walk |
| `Category.WalkFindsRoot` | src/modules/ecommerce/category/category.service.ts:71-85 | on a map without the deleted categories: the walk finds the root if and only if it is within the bound and nothing below it is deleted, and stops at a live category if and only if it meets no deleted one |
| `Category.FindShopFilterCategories` | src/modules/ecommerce/category/category.service.ts:45-98 | the entries are the live, active categories the walks stop at, with their counts; together they hold every product if and only if no walk meets a deleted category and each stops at an active one |
| `BackInStock.FindTrigger` | src/modules/notification/back-in-stock.service.ts:117-126 | finds a variant exactly when the item is in stock |
| `BackInStock.InStockMeans` | src/modules/notification/back-in-stock.service.ts:86-126 | in stock: a purchasable variant that the item names, or any of its product if it names none, has more than nothing on shelves that are not deleted |
| `BackInStock.AlertLedger.RunSweep` | src/modules/notification/back-in-stock.service.ts:86-161 | the new ledger, the alerts in order, and both counts; alerts less re-arms is the change of the ledger's size |
| `BackInStock.AlertLedger.Decide` | src/modules/notification/back-in-stock.service.ts:135-145 | the loop picks exactly the items to re-arm and to alert |
| `BackInStock.AlertLedger.EnqueueAlert` | src/modules/notification/back-in-stock.service.ts:241-279 | row and event together, or neither |
| `BackInStock.AlertsAreRisingEdges` | src/modules/notification/back-in-stock.service.ts:86-161 | over serial sweeps of any lists and stocks: an item is alerted exactly when it is listed in stock for a known user and was not left fresh by the earlier ones; with a known user throughout, exactly when it was not in stock at the last sweep that listed it |
| `BackInStock.RowMeansInStock` | src/modules/notification/back-in-stock.service.ts:128-153 | its row is present exactly when some sweep saw it in stock for a known user and none since saw it out of stock |
| `BackInStock.RowMeansLastSeen` | src/modules/notification/back-in-stock.service.ts:128-153 | with a known user throughout: exactly when the last sweep that listed it saw it in stock |
| `BackInStock.OverlapBalances` | src/modules/notification/back-in-stock.service.ts:128-160 | however sweeps overlap or stop, alerts enqueued less rows removed is the row present, 0 or 1 |
| `Privacy.EveryRunSound` | src/modules/compliance/privacy/privacy.service.ts:335-558 | every interleaving: CANCELLED and ANONYMIZED are final, a request reported cancelled is never executed, a person is erased exactly if one of their requests was executed, and only after one of them had come due |
| `Privacy.SoundStep` | src/modules/compliance/privacy/privacy.service.ts:383-532 | every step of asks, cancels, claims, scrubs, commits and rollbacks keeps that |
| `Privacy.PrivacyService.RequestDeletion` | src/modules/compliance/privacy/privacy.service.ts:335-363 | an active request is returned rather than duplicated; otherwise one is opened for thirty days later |
| `Privacy.PrivacyService.CancelDeletion` | src/modules/compliance/privacy/privacy.service.ts:389-405 | yields exactly while the request is in grace; takes that one request out of grace and leaves the user, and everyone else, any other |
| `Privacy.PrivacyService.AnonymizeUser` | src/modules/compliance/privacy/privacy.service.ts:454-558 | claim and scrub happen together or not at all, and only with a request in grace: exactly the user's requests in grace become ANONYMIZED, and identity, sessions and subscription go |
| `Privacy.SecondInGrace` | src/modules/compliance/privacy/privacy.service.ts:335-363 | where nobody has two requests in grace, a step gives someone a second if and only if it writes an ask that another has overtaken |
| `Privacy.AloneClaim` | src/modules/compliance/privacy/privacy.service.ts:335-524 | in a run without overtaking asks a claim takes a request that is not due only if the listed one left grace after it was listed; while that is in grace the claim takes it alone |
| `Privacy.EarlyClaim` | src/modules/compliance/privacy/privacy.service.ts:427-524 | in every run such a claim means that the listed request has left grace or the user has two in grace |
| `Privacy.CancelLeavesAnother` | src/modules/compliance/privacy/privacy.service.ts:383-405 | a reported cancel leaves the user another request in grace if and only if there were two; never in a run without overtaking asks |
| `Privacy.AskAgainIsErasedEarly` | src/modules/compliance/privacy/privacy.service.ts:427-524 | a run: a request comes due and is listed, its user cancels and asks again, and the claim takes the request just made |
| `Privacy.RacingAsksOutliveCancel` | src/modules/compliance/privacy/privacy.service.ts:335-394 | a run in which a reported cancel leaves another request of the user in grace |
| `NumberWordsProofs.AmountRead` | src/modules/ecommerce/invoice/indian-number-words.ts:94-106 | for every amount from zero to below a thousand crore rupees a reader recovers from the sentence the amount rounded to paise |
| `NumberWordsProofs.AmountsDiffer` | src/modules/ecommerce/invoice/indian-number-words.ts:94-106 | two such amounts print alike if and only if 100 times each rounds to the same whole number |
| `NumberWordsProofs.SentenceRead` | src/modules/ecommerce/invoice/indian-number-words.ts:94-106 | a reader recovers rupees and paise from the sentence, below twice a thousand crore rupees |
| `NumberWordsProofs.SentencesDiffer` | src/modules/ecommerce/invoice/indian-number-words.ts:94-106 | no two numbers of rupees and paise print alike |
| `NumberWordsProofs.RupeesRead` | src/modules/ecommerce/invoice/indian-number-words.ts:66-82 | reading the words of the rupees gives the rupees |
| `NumberWordsProofs.ReadThree` | src/modules/ecommerce/invoice/indian-number-words.ts:52-60 | reading the words of a group gives the group |
| `NumberWordsProofs.ReadTwo` | src/modules/ecommerce/invoice/indian-number-words.ts:45-50 | reading the words of a number below a hundred gives the number |
| `NumberWordsProofs.DictionaryExists` | src/modules/ecommerce/invoice/indian-number-words.ts:9-43 | no two words of the tables are spelled alike |
| `NumberWordsProofs.WordsBelowHundred` | src/modules/ecommerce/invoice/indian-number-words.ts:45-50 | a number below a hundred is one word, or two with a hyphen |
| `NumberWordsProofs.OneToFour` | src/modules/ecommerce/invoice/indian-number-words.ts:9-30 | the words for these numbers |
| `NumberWordsProofs.FiveToEight` | src/modules/ecommerce/invoice/indian-number-words.ts:9-30 | the words for these numbers |
| `NumberWordsProofs.NineToTwelve` | src/modules/ecommerce/invoice/indian-number-words.ts:9-30 | the words for these numbers |
| `NumberWordsProofs.ThirteenToSixteen` | src/modules/ecommerce/invoice/indian-number-words.ts:9-30 | the words for these numbers |
| `NumberWordsProofs.SeventeenToNineteen` | src/modules/ecommerce/invoice/indian-number-words.ts:9-30 | the words for these numbers |
| `NumberWordsProofs.TwentyToFifty` | src/modules/ecommerce/invoice/indian-number-words.ts:32-43 | the words for these tens |
| `NumberWordsProofs.SixtyToNinety` | src/modules/ecommerce/invoice/indian-number-words.ts:32-43 | the words for these tens |
| `NumberWordsProofs.CapitalIs` | src/modules/ecommerce/invoice/indian-number-words.ts:108-110 | the first letter is made a capital and nothing else is changed |
| `NumberWordsProofs.NegativeOvershoots` | src/modules/ecommerce/invoice/indian-number-words.ts:94-105 | what is printed for an amount below zero that is not whole |
| `NumberWords.NumberToIndianWords` | src/modules/ecommerce/invoice/indian-number-words.ts:94-106 | the printer prints the sentence of the amount rounded to paise |
| `NumberWords.RupeesInWords` | src/modules/ecommerce/invoice/indian-number-words.ts:66-82 | the pushed parts joined by spaces are the rupees' text |
| `Text.SplitJoin` | src/modules/ecommerce/invoice/indian-number-words.ts:81 | words joined by a separator they do not contain can be taken apart again |

## Left out

- Backoff: the delays are integers and the exponent is exact; a floating-point power is not modelled.
- Number words: the amount is rounded exactly; floating-point error before the rounding is not modelled.
- Coupons: codes are compared as given (trimming and upper-casing are outside), messages are not modelled, and money is exact where the program uses binary floating point. The seller-facing variants, which check ownership and call the same code, are not modelled.
- Tax ledger: each refund's transaction is serialised; two of them reading each other's uncommitted balance are not modelled, since isolation is the database's. Decimal quotients are exact where the library keeps twenty digits. The deposit lifecycle, the descriptive fields of the exports and the listings would add only easy members.
- Outbox: the database's and the program's clocks are one clock, and a status write that fails counts as a crashed run, or as a failed one when it follows a success. Which due rows a claim takes, and in what order, is left to the database. Payloads, error texts and correlation ids are not modelled.
- Grievances: one clock; message texts, ticket numbers, trimming and notifications are not modelled.
- Rules: an empty filter constrains nothing, also inside OR. The database client's own refusal of an invalid date, or of a fractional number for an integer column, is not modelled, nor is NaN, which JSON cannot express.
- Newsletter: consent is fixed while a campaign runs, and the active subscribers too where handlers run side by side; `NewsletterPaging` lets them change under one handler; the confirmation flow and the minting of unsubscribe tokens are not modelled.
- Soft delete: filters are top-level, with one condition per named column and an arbitrary predicate on the other columns. Nested relations and interactive transactions, where the documented limits apply, are not modelled.
- Categories: slugs are not modelled. `updateTree` writes parents without a check and is not part of this model; acyclicity is not claimed across it.
- Back in stock: a sweep reads any list of items, so which ones the cap keeps is left open; the delivery of alerts is not modelled.
- Erasure: what the identity modules scrub is three flags of a person.
- Resolvers, guards, logging, mail, object storage, courier and payment calls: wiring without state of its own here.
- The order state machine that refunds and shipments drive is not part of this model.
