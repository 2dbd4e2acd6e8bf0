# A model of the retail backend's money and stock kernel

The backend sells over several tills, keeps an append-only stock ledger, takes goods back and closes one Z report
per warehouse and commercial day. These modules model that kernel and prove what it promises over all inputs, all
runs and all interleavings. `dafny verify dfyconfig.toml` checks the whole project.

| module | what it models |
|---|---|
| Money, SaleLines | exact decimals, the two rounding rules, the price snapshot of a sale line and what any part of it is worth |
| ZTotals, ZFigures | the payment test of a checkout and every figure of a Z, as loops, as a specification, and once more as sums over lines and payments |
| Till, TillCommits | checkouts, returns, draft edits, fiscal-mode changes and Z closes of every warehouse, interleaved step by step, and what each of them commits |
| LockOrder | transactions that take locks along plans, and the plans the operations really follow |
| Returns | economic and physical returns: the planning pass, the apply pass, and their valuation |
| Idempotency | claim, replay, completion and rollback, one at a time and interleaved; the checkout fingerprint |
| Inventory, Lots, CheckoutStock, StockRuns | ledger and balance projection, FEFO, the stock half of a checkout, and whole histories |
| Cart | merging scanned lines, and open-price buttons |
| Purchasing | purchase orders and goods receipts |
| Pricing, Repricing | list prices and their history, and who is priced again by what |
| RateLimiter, Outbox, Layout | the sliding-window limiter, the mail outbox, the receipt layout language |
| Sums, Sorting | sums, groupings and ordering that the others share |

Objects that the backend updates in place are classes (`CompletedSale`, `Service`, `Stockroom`, `DraftSale`,
`PurchaseOrder`, `SlidingWindowRateLimiter`, `Mailbox`, `PriceBook`). Their methods keep the backend's loops and
tests, and each is proved equal to a function on plain values; the theorems are about those functions. Concurrent
behaviour is a state machine whose steps are the points at which a transaction locks, reads or commits.

## Numbers

Quantities, prices and rates are exact (`real`). A stored amount is an `int` of millionths: `_q` is half to even at
10^-6 (`RoundHalfEven`) and `payable` is half up at 10^-2 (`Payable`). A NUMERIC(18,6) column rounds what it is given,
halves away from zero (`Stored`; `AtScale` says that nothing is lost). That rounding is modelled where a request may
carry more decimals and the code goes on to compare or add what was stored: the price and discount of a sale line, the
quantity of a stock movement, and the inputs, taxes, margins and fixed prices of products. Elsewhere it is assumed away
below.

## Assumptions

- The database clock does not go back, and the shop's timezone does not change during a run, so that a commercial day
  is the stretch between two starts (`Till.Coherent`). The wall-clock details of a timezone play no part.
- Advisory and row locks last until the transaction ends, uncommitted writes are invisible to others, and a commit is
  atomic. `Abort` stands for every failure, a stock shortage included.
- Hashes are injective: a fingerprint is the canonical request itself.
- Packages and packages times factor, in sales, returns and orders, have at most six decimals, which is how
  `quantity_base` is stored (`SaleLines.Packaged`); the factor of a presentation never changes; and tender amounts have
  at most six decimals.
- Request bodies obey their schemas: positive tenders and quantities, rates and prices that are not negative, at
  least one line in a receipt.
- Ids are integers, and lot numbers and product names too where only their equality and order matter. Lines, tenders
  and receipts are listed inside the sale or order that owns them.
- Lots of a product exist while a balance row names them (the foreign key).

## Where the code and its documentation differ

- `_add_or_merge` says that lines are joined only when everything that decides the amount coincides. It does not
  compare the presentation's own price, so a price set, edited or removed between two scans can be lost and the
  customer charged a cent more. `Cart.RepricedLinesCanMerge` and `Cart.UnpricedLinesCanMerge` give such pairs, and
  `Cart.MergeIsFaithfulUnlessRepriced` says for every pair that merges exactly when the merge is faithful.
- It also says that scanning a product three times is one line of three. A line whose unit price or discount has more
  than six decimals never merges with its own earlier scan, because what was stored was rounded
  (`Cart.MergesWithItself`, `Cart.TooFineToMerge`).
- `set_pricing_inputs` means to record nothing when nothing has changed. A number of more than six decimals differs
  from what was stored of it, so saving it again records the price again, and the price shown may not be the automatic
  price of the stored inputs (`Pricing.SavingAgainIsNoOp`, `Pricing.PriceMatchesRow`, `Pricing.TooFineACost`).
- `set_lot_stock` sets a lot to its counted balance. It does so exactly when the count has six decimals
  (`Inventory.CountIsExact`).
- The first pass of a goods receipt looks at each delivery alone, so it does not validate "the complete request"; the
  second pass does (`Purchasing.FirstPassIsNotEnough`, `Purchasing.ReceiveMeaning`). For returns the first pass is
  cumulative and the second never fails (`Returns.ValidateMeaning`, `Returns.StepFits`).

## Model

| member | source | states |
|---|---|---|
| Till.FinalZsNeverChange | backend/app/sales/z_reports.py:394-484 | from any state some interleaving of checkouts, returns, draft edits, mode changes, closes and aborts reaches, and after any further interleaving, every Z is still there and the figures of its whole day, recomputed from what is then committed, are the figures it froze |
| Till.SaleFallsInOneZ | backend/app/sales/z_reports.py:321-333 | a completed sale lies in the warehouse and day of at most one Z |
| Till.TicketNumbersAreGapless | backend/app/sales/service.py:755-766 | in every interleaving with rollbacks, deleted drafts and several tills, committed sale numbers are 1, 2, 3 and so on in commit order, one per sale, and inside a warehouse a lower number was never charged later |
| Till.ZNumbersAreConsecutive | backend/app/sales/z_reports.py:455-468 | the Zs of one warehouse are numbered 1, 2, 3 and so on in the order of their days, and days strictly increase |
| Till.EveryZBalances | backend/app/sales/z_reports.py:173-196 | every Z ever issued has cash, card and other all non-negative and adding up exactly to its gross total |
| Till.WindowIsDay | backend/app/sales/z_reports.py:405-412 | under the warehouse cut, the report window from the start of the day to the clock reading contains exactly what the warehouse has of that day |
| Till.OneZADay | backend/app/sales/z_reports.py:414-422 | two Zs of one warehouse are of different days, the later one of a later day with a higher number |
| Till.NumberIsPlace | backend/app/sales/z_reports.py:455-459 | a Z is numbered by its place among the Zs of its warehouse |
| Till.CheckoutKeeps | backend/app/sales/service.py:831-985 | each step of a checkout (cut, clock, day test, sale lock, payment test, number, commit) keeps the whole protocol invariant, whatever every other transaction is in the middle of; what it holds is the whole cart of the request |
| Till.ReturnKeeps | backend/app/returns/service.py:208-242 | each step of a return keeps the protocol invariant, whatever every other transaction is in the middle of |
| Till.CloseKeeps | backend/app/sales/z_reports.py:394-484 | each step of a Z close keeps the protocol invariant, including the figures it has computed and not yet committed |
| Till.RunKeeps | backend/app/sales/accounting.py:1-36 | every run of every number of transactions keeps the protocol invariant |
| Till.CommittedStays | backend/app/sales/z_reports.py:394-422 | committed sales, refunds and Zs are only ever added to |
| TillCommits.SaleIsTheCart | backend/app/sales/service.py:842-968 | whenever a step adds a sale, it adds one: all the lines of the draft it removes, with the draft's terminal and warehouse, the payments and cashier of the request, the next number, the instant its day was tested at and the fiscal mode it read; nothing else in the database changes |
| TillCommits.HeldCartIsTheCart | backend/app/sales/service.py:842-873 | in every interleaving a checkout that has its sale holds the lock and holds the cart exactly as it stands in the database |
| TillCommits.ModeIsReadUnderTheLock | backend/app/sales/service.py:842-863 | the fiscal mode of a checkout is the one in force at the step that takes the sale lock, and no later step changes it |
| TillCommits.LoneCheckout | backend/app/sales/service.py:831-985 | with nothing in its way a checkout commits the whole cart as the next sale in six steps, or nothing: on a closed day, for a missing or empty cart, or for tenders that do not settle it |
| TillCommits.AloneIsARun | backend/app/sales/service.py:831-985 | the steps of a lone transaction are a run like any other, so what holds of every run holds of them |
| TillCommits.RefundIsTheRequest | backend/app/returns/service.py:356-367 | whenever a step adds a refund, it is the requested one, at the sale's warehouse and the instant its day was tested at, and nothing else changes |
| TillCommits.LoneReturn | backend/app/returns/service.py:208-242 | with nothing in its way a return commits its refund, or nothing: for money on a closed day, or for a sale that is not completed |
| TillCommits.ZIsTheDay | backend/app/sales/z_reports.py:394-484 | whenever a step issues a Z, it is for the day of the clock it read, with the figures of that whole day, and nothing else changes |
| TillCommits.LoneClose | backend/app/sales/z_reports.py:394-484 | with nothing in its way a close issues the next Z of its warehouse for today, or nothing: while a cart of the warehouse has lines, or once the day has its Z |
| TillCommits.DayHolds | backend/app/sales/z_reports.py:135-142 | the sales of a day are all those of the warehouse charged on it, each as often as it was sold, and no other |
| TillCommits.DayHoldsRefunds | backend/app/sales/z_reports.py:200-213 | and so are its refunds |
| TillCommits.RowsAreRead | backend/app/sales/z_reports.py:135-145 | the figures are taken from the sales and refunds of exactly those rows |
| LockOrder.NeverDeadlocked | backend/app/sales/accounting.py:3-9 | when transactions take their locks along ascending plans and hold them to the end, any reachable state with an unfinished transaction has one that can take its next step |
| LockOrder.EveryoneFinishes | backend/app/sales/accounting.py:3-9 | from any such state all transactions commit with no rollback, after exactly the number of steps that remained |
| LockOrder.CheckoutAscends | backend/app/sales/service.py:901-924 | the locks of a checkout (key, cut, sale, terminal, balance rows of its sorted lines by product then row id, sale number) ascend in one global order, whichever rows FEFO writes |
| LockOrder.ReturnAscends | backend/app/returns/service.py:208-333 | the locks of a return (key, cut, sale, lots by product and number, balance rows) ascend in the same order |
| LockOrder.FefoAndCloseAscend | backend/app/lots/service.py:442-451 | manual FEFO consumption and Z close take their locks in the same order too |
| LockOrder.LocksAreExclusive | backend/app/sales/accounting.py:24-30 | in any reachable state no lock is held by two running transactions |
| LockOrder.BeginningAddsItsWork | backend/app/sales/accounting.py:24-30 | a transaction that begins has all the locks of its plan to take, and then to commit |
| LockOrder.BelowIsTheDocumentedOrder | backend/app/sales/accounting.py:3-9 | the order is key, cut, sale, terminal, lots by product and number, balance rows by product and row id, sale number: a strict total order |
| LockOrder.CheckoutLocks | backend/app/sales/service.py:901-924 | the plan of a checkout holds its key, its cut, its sale, its terminal, every balance row of every product it takes stock of, the sale number, and nothing else |
| LockOrder.ReturnLocks | backend/app/returns/service.py:208-333 | the plan of a return holds its key, its cut, its sale, the lots it names, every balance row of every product it restocks, and nothing else |
| LockOrder.FefoAndCloseLocks | backend/app/lots/service.py:442-451 | a manual withdrawal locks its key and all rows of its product, a Z close its key and the cut, and nothing else |
| Money.RoundHalfEven | backend/app/sales/service.py:92-96 | the nearest integer, the even one on a tie |
| Money.Payable | backend/app/sales/service.py:77-89 | a whole number of cents, within half a cent of the total, ties away from zero |
| Money.StoredIsClose | backend/app/db/types.py:35-48 | a column keeps the nearest millionth of a number, ties away from zero |
| Money.TotalIsLinear | backend/app/sales/service.py:113-151 | the total of `compute_amounts` is the exact per-unit charge times the quantity, rounded once to a millionth, with and without tax included |
| Money.AmountsSpelledOut | backend/app/sales/service.py:137-151 | each figure of `compute_amounts` is the nearest millionth of its own: price plus supplement of every unit; the discount on the price alone; the tax taken out of or put onto what remains; and what is due |
| Money.AmountsFit | backend/app/sales/service.py:137-151 | the four rounded figures fit together within their roundings: with tax included the total is subtotal less discount and its net part grown by the rate is the total; with tax added the total is subtotal less discount plus the tax, which is the rate of that base |
| Money.SupplementIsNotDiscounted | backend/app/sales/service.py:138-143 | raising the supplement leaves the discount alone and raises the subtotal, and with its tax the total, by the quantity times the rise, whatever the discount, to within the roundings |
| ZTotals.TenderTestIsExact | backend/app/sales/service.py:864-891 | checkout accepts exactly the tenders that balance: what stays after change equals the charge and no cash is missing |
| ZTotals.CollectedIsGross | backend/app/sales/z_reports.py:186-196 | over any completed sales, cash, card and other are each non-negative and add up to the gross total |
| ZTotals.SharesAddUp | backend/app/sales/z_reports.py:232-248 | a breakdown by terminal or by cashier, listed in any order, adds up to the count and the gross of the report |
| ZTotals.RatesAddUp | backend/app/sales/z_reports.py:156-169 | per tax rate base plus tax is the total, the taxes add up to the tax of the report, and the rate totals are within half a cent a sale of the gross |
| ZTotals.RefundsAddUp | backend/app/sales/z_reports.py:213-221 | refunds by cash, card, other and unknown methods add up to what was refunded |
| ZTotals.TicketRange | backend/app/sales/z_reports.py:299-313 | the first and last ticket of a report are the least and greatest numbers of its sales, absent exactly when there are none |
| ZTotals.LinesAreCloseToGross | backend/app/sales/z_reports.py:171-175 | rounding once per sale keeps the unrounded line totals within half a cent per sale of the gross |
| ZTotals.RowsBySale | backend/app/sales/z_reports.py:149-162 | the accumulator under a sale id is that sale's own line totals |
| ZTotals.AccumulateRows | backend/app/sales/z_reports.py:156-169 | the loop over the joined lines computes tax, discount, the per-rate dictionary and the unrounded total of every sale |
| ZTotals.AccumulateTenders | backend/app/sales/z_reports.py:177-196 | the loop over one sale's tenders leaves what was collected by each method, change taken out of cash only |
| ZTotals.RoundSales | backend/app/sales/z_reports.py:171-175 | the loop that rounds each sale to cents, and their gross total |
| ZTotals.AccumulateShares | backend/app/sales/z_reports.py:232-248 | the loop over the sales computes both breakdowns |
| ZTotals.AccumulateRefunds | backend/app/sales/z_reports.py:213-221 | the loop over the refunds computes their total and the amount by method, unknown methods apart |
| ZTotals.ComputeTotals | backend/app/sales/z_reports.py:128-318 | the whole report equals its figures as defined one by one from the sales and the refunds |
| ZFigures.AmountsSpelledOut | backend/app/sales/z_reports.py:142-175 | count, gross, tax and discount are nested sums over the sales and their lines, each sale rounded to cents once; refunds are counted and added up |
| ZFigures.MethodsSpelledOut | backend/app/sales/z_reports.py:177-221 | card and other are the payments made by them, cash is the cash paid less everything handed back, and refunds by method are those of that method, unknown ones apart |
| ZFigures.RatesSpelledOut | backend/app/sales/z_reports.py:156-169 | the rates listed are exactly those sold, each with the base, the tax and the total of the lines at that rate |
| ZFigures.TerminalSpelledOut | backend/app/sales/z_reports.py:232-244 | the terminals listed are exactly those that sold, each with its number of sales and what they were charged |
| ZFigures.CashierSpelledOut | backend/app/sales/z_reports.py:245-248 | the same by cashier, identity and name at the time |
| SaleLines.ReturnAmountGrows | backend/app/returns/service.py:131-154 | refunding more is never worth less, and refunding nothing is worth nothing |
| SaleLines.FullRefundIsTheCharge | backend/app/returns/service.py:131-154 | the value of the whole sold quantity is the line total charged |
| SaleLines.LineSpelledOut | backend/app/sales/service.py:154-184 | the figures of a line in its own terms: packages at their own price or base units at the unit price, the discount on that, and the supplement of every base unit |
| SaleLines.RefundIsTheShare | backend/app/returns/service.py:131-154 | any part of a sold line is worth its share of the line total, refunded over sold, to within a millionth |
| Returns.PaidIsTheShare | backend/app/returns/service.py:433-447 | what any schedule of returns has paid on a line is its refunded share of the line total, to within a millionth |
| Returns.LotRulesMeaning | backend/app/returns/service.py:266-285 | a lot is named exactly when stock of a lot-tracked product comes back |
| Returns.RefundAskedIsPackages | backend/app/returns/service.py:239-264 | what a request asks to refund of a line is the packages it names there, in base units, over all its lines |
| Returns.StockAskedIsPackages | backend/app/returns/service.py:239-264 | and so is what it asks to restock |
| Returns.RefusalsSayWhy | backend/app/returns/service.py:157-173 | a refusal names its cause: an unknown line, too much money or stock, which is a conflict exactly when it would have fitted the sale, or a lot out of place |
| Returns.RefundsTelescope | backend/app/returns/service.py:433-447 | for every schedule of partial returns the refunds of a line so far sum to the value of its cumulative refunded quantity |
| Returns.RefundsAreNonNegative | backend/app/returns/service.py:433-447 | no step of any schedule is negative |
| Returns.ScheduleDoesNotMatter | backend/app/returns/service.py:433-447 | schedules that refund the same quantity of a line pay the same, and a full refund pays the line total charged |
| Returns.FullyRefundedSale | backend/app/returns/service.py:433-447 | a sale whose lines, each listed once, are all refunded in full has paid back in all what it was charged, to within half a cent |
| Returns.RefundedInFull | backend/app/returns/service.py:356-367 | the refunds issued on such a sale add up to its charge, to within half a cent |
| Returns.CountersAreNonNegative | backend/app/returns/service.py:465-466 | no schedule of returns leaves an economic or physical counter below zero |
| Returns.ValidateMeaning | backend/app/returns/service.py:234-307 | the planning pass accepts a request exactly when every line is known, obeys the lot rules and all the lines together fit what is left, even when one sale line appears several times |
| Returns.OrderIsIrrelevant | backend/app/returns/service.py:222-234 | execution order does not change what is acceptable nor what is asked of each sale line |
| Returns.RequestsAscend | backend/app/returns/service.py:226-234 | lines are executed by product, then lot with none before any, then sale line, however the request lists them |
| Returns.BookedIsPlanned | backend/app/returns/service.py:335-370 | after an accepted plan the apply pass ends in exactly the planned counters, with books that agree with the return lines |
| Returns.StepFits | backend/app/returns/service.py:414-430 | in the apply pass of an accepted plan no capacity test fails |
| Returns.BookingKeepsConsistent | backend/app/returns/service.py:402-484 | booking one line keeps each economic and physical counter equal to the sum over its return lines, and each stocked unit a ledger entry |
| Returns.CompletedSale.ApplyReturnLine | backend/app/returns/service.py:402-484 | one line: refused exactly for capacity and then nothing changes; otherwise one return line with its base quantities and value, counters up by them, and one restock with its lot when a stocked product comes back |
| Returns.CompletedSale.CreateReturn | backend/app/returns/service.py:176-400 | a return is accepted exactly when its lines fit together, never fails half-way, changes nothing when refused, pays what its lines are worth, and keeps counters between zero and the quantity sold |
| Idempotency.ExactlyOnce | backend/app/idempotency/service.py:28-91 | any run of requests leaves the business state of the work done once for the first success under each operation and key, with one completed record for each |
| Idempotency.VisibleRecordsAreCompleted | backend/app/idempotency/service.py:76-91 | every visible record is completed, so no caller is told that an operation has not completed |
| Idempotency.RetriesReplay | backend/app/idempotency/service.py:62-80 | a request that succeeded is answered with its first result ever after and changes nothing; another owner or another content under its key is refused and changes nothing |
| Idempotency.FailureFreesTheKey | backend/app/idempotency/service.py:39-42 | a rolled-back attempt leaves the key free |
| Idempotency.InterleavingsAreSerial | backend/app/idempotency/service.py:37-60 | however requests interleave, wait on each other's inserts and roll back, database and answers are those of a serial order of the answered requests, and exactly-once holds of it |
| Idempotency.AnswersAreLogged | backend/app/idempotency/service.py:37-91 | the step in which a request ends without a rollback adds it to the serial history, with the answer and the database of serving it alone then |
| Idempotency.WaitersHaveAnOwner | backend/app/idempotency/service.py:39-42 | a request that waits waits for a running owner, and an owner never waits for a key |
| Idempotency.Service.Claim | backend/app/idempotency/service.py:44-80 | inserts an unfinished record for a new key, otherwise answers from the stored one without touching it |
| Idempotency.Service.Complete | backend/app/idempotency/service.py:83-91 | from then on the request is answered with this result, and no other record has changed |
| Idempotency.Service.Handle | backend/app/sales/service.py:806-829 | claim, work and completion as one transaction: the result and the new state are those of the serial specification |
| Idempotency.Service.HandleAll | backend/app/idempotency/service.py:28-91 | requests handled one after another leave the state that the serial specification, and so exactly-once, speaks of |
| Idempotency.CheckoutFingerprintsAgree | backend/app/sales/service.py:769-790 | two checkout fingerprints are equal exactly when they are for one sale and have as many payments of each amount, at six decimals, by each means, for any total order used to sort them |
| Inventory.UpsertTotal | backend/app/inventory/service.py:164-210 | whatever selection of coordinates is added up, an upsert adds its quantity where it belongs and nowhere else |
| Inventory.PostKeepsAgreement | backend/app/inventory/service.py:276-290 | writing a movement and folding it into the balance keeps each row equal to the sum of its movements and existing exactly when it has one |
| Inventory.ContextMeaning | backend/app/inventory/service.py:124-161 | a coordinate is valid exactly when the product exists, the location belongs to the warehouse, a lot is the product's own, and by policy, there is a lot just when the product tracks lots; each refusal says which of these fails |
| Inventory.RecordMeaning | backend/app/inventory/service.py:255-290 | a movement is refused exactly out of context or when it takes more than there is without the exemption; a recorded one is the ledger's last, changes every total by what is stored of its quantity, and leaves its coordinate at zero or more unless exempt |
| Inventory.RecordKeepsNonNegative | backend/app/inventory/service.py:262-274 | a movement without the exemption keeps all balances non-negative |
| Inventory.TransferConserves | backend/app/inventory/service.py:423-471 | a transfer succeeds exactly when both contexts are valid and the source covers it; it conserves the product total, moves exactly what is stored of its quantity, touches no other coordinate and writes both halves to the ledger |
| Inventory.CountIsExact | backend/app/lots/service.py:248-301 | a lot count is refused only for its lot or its place, never for lack of stock, and leaves the lot within half a millionth of the count, at exactly the count if and only if it has six decimals; it writes an adjustment by the difference exactly when there is one, touches no other coordinate, and the same count again writes none if and only if it has six decimals |
| Inventory.TooFineACount | backend/app/lots/service.py:272-285 | a count of 0.0000004 is stored as nothing |
| Inventory.RebuildChangesNothing | backend/app/inventory/service.py:559-590 | the table rebuilt from the ledger says the same of every coordinate as the one it replaces, in whatever order the groups are listed |
| Inventory.Stockroom.RecordMovement | backend/app/inventory/service.py:235-298 | checks context and stock, then appends and upserts; refused movements change nothing |
| Inventory.Stockroom.Adjust | backend/app/inventory/service.py:392-405 | signed adjustments may leave stock negative, waste may not |
| Inventory.Stockroom.Transfer | backend/app/inventory/service.py:423-471 | both halves or neither, and the second never fails |
| Inventory.Stockroom.SetLotStock | backend/app/lots/service.py:238-301 | records the difference between the count and the balance, or nothing |
| Inventory.Stockroom.Rebuild | backend/app/inventory/service.py:559-599 | the loop writes one row per group and leaves the same table |
| StockRuns.ProjectionAgreement | backend/app/inventory/service.py:164-298 | after any history of movements, transfers, counts, FEFO reductions, sales, configuration changes and rebuilds, projection and ledger agree and rebuilding would change nothing |
| StockRuns.OrdinaryRunsStayNonNegative | backend/app/inventory/service.py:262-274 | a history with no exempted decrease leaves no coordinate negative |
| StockRuns.EveryTotalIsBooked | backend/app/inventory/service.py:544-556 | however balances are added up, the ledger adds up to the same |
| Lots.BalancesAreInOrder | backend/app/lots/service.py:343-358 | the lots offered are the product's own with positive stock, dated before undated, earlier before later by the lot's own date, then by id |
| Lots.PlanDrawsInOrder | backend/app/lots/service.py:405-419 | for every k the plan draws from the first k lots the lesser of the request and their total |
| Lots.OnlyThePlan | backend/app/lots/service.py:405-419 | that characterises the plan: no other allocation draws so |
| Lots.FefoMeaning | backend/app/lots/service.py:442-478 | consumption succeeds exactly when positive lot stock covers the request; it is then never refused midway, writes one entry of its kind for each lot drawn, takes exactly what the ledger keeps of the plan (the plan itself for a request of six decimals), the stored quantity in all, and leaves every drawn lot non-negative |
| Lots.AllButLastAreWhole | backend/app/lots/service.py:405-412 | every lot of a plan but the last is drawn whole |
| Lots.DrawSucceeds | backend/app/lots/service.py:460-473 | each prefix of an affordable plan is drawn without refusal and takes exactly what the ledger keeps of it, from where it says |
| Lots.BalanceOfLot | backend/app/lots/service.py:343-358 | each lot is offered with exactly what its balance row holds |
| Lots.PlanLots | backend/app/lots/service.py:390-419 | the allocation loop computes the plan, breaking off early or not |
| Lots.ExecuteConsumption | backend/app/lots/service.py:422-493 | plan and draw as one transaction |
| CheckoutStock.AdvisoryCheckIsExact | backend/app/sales/service.py:910-956 | with negative stock off, sound rows and no commit in between, the grouped advisory check passes exactly when the sequential loop over the sorted lines succeeds, and the loop removes exactly what the lines ask for |
| CheckoutStock.NegativeStockNeedsLots | backend/app/sales/service.py:898-956 | with negative stock on, in whatever state the balances are, the loop succeeds exactly when each lot-tracked product has positive lot stock for all that the sale wants of it, and it removes exactly what the lines ask for |
| CheckoutStock.SpendNegative | backend/app/sales/service.py:919-956 | with negative stock on, one line without lots always succeeds, and one with lots exactly when they cover it |
| CheckoutStock.SpendSucceeds | backend/app/sales/service.py:919-956 | with negative stock off, one line succeeds exactly when the place holds enough of its product in all, lot-tracked or not |
| CheckoutStock.SpendTakes | backend/app/sales/service.py:932-956 | one line takes exactly its base quantity of its product at its place and nothing else |
| CheckoutStock.AssertStockAvailable | backend/app/sales/service.py:257-284 | the grouping loop and the test per product decide exactly the advisory rule |
| CheckoutStock.SpendStock | backend/app/sales/service.py:910-956 | the lock-check-decrement loop, undone as a whole when a line is refused |
| CheckoutStock.LinesAscend | backend/app/sales/service.py:910-913 | lines are charged by product, then by id, however they were scanned |
| CheckoutStock.ChargeWrites | backend/app/sales/service.py:932-956 | all that a checkout adds to the ledger are sales, at its place, of products on its lines |
| Cart.OpenPricesAreCharged | backend/app/sales/service.py:535-548 | open-price amounts entered in whole cents, merged or not, are charged to the cent whenever the sum of the entries' rounding bounds is under half a cent |
| Cart.OpenPriceIsClose | backend/app/sales/service.py:535-548 | taking the tax out of an amount and putting it back misses it by at most half a millionth grown by the tax |
| Cart.MergeAddsUp | backend/app/sales/service.py:497-516 | merging two lines of one presentation at one price comes, before rounding, to exactly the sum of both, and keeps base quantity and packages in step |
| Cart.MergedLineIsClose | backend/app/sales/service.py:497-516 | once rounded, such a merged line is charged within a millionth of the two lines |
| Cart.MergeIsFaithfulUnlessRepriced | backend/app/sales/service.py:497-516 | for any two lines the code merges, the merge comes to what the two lines would exactly when a package costs the same in both (its own price, else its base units' price) or the line is discounted in full; the code compares neither |
| Cart.RepricedLinesCanMerge | backend/app/sales/service.py:199-209 | two scans around an edit of the presentation price that do merge, and are charged a cent more than apart |
| Cart.UnpricedLinesCanMerge | backend/app/sales/service.py:199-209 | the same cent when the presentation price was removed in between |
| Cart.MergesWithItself | backend/app/sales/service.py:497-516 | a line merges with its own earlier scan exactly when its unit price and its discount have six decimals, since what was stored was rounded |
| Cart.TooFineToMerge | backend/app/sales/service.py:497-516 | three units for 1.00, and one unit at 1.00 less 33.3333333%: neither merges with its own earlier scan |
| Cart.DraftSale.Add | backend/app/sales/service.py:482-519 | the first line with the same product, presentation, caption, price, rates, supplement and tracking grows by the scan's packages and base quantity and keeps everything else, and with none the scan comes last as it is stored; per product, presentation and caption the cart grows by exactly the scan's quantities, and by at most one line |
| Cart.DraftSale.AddLine | backend/app/sales/service.py:588-602 | an open-price button needs a total and one base unit, anything else refuses a total |
| Purchasing.EveryRunIsSound | backend/app/purchasing/service.py:219-369 | in every run each line has received the sum of its receipts times its factor, between zero and what was ordered; unplaced and cancelled orders have received nothing; a receiving order is RECEIVED exactly when all its lines are complete |
| Purchasing.LinesFreeze | backend/app/purchasing/service.py:219-285 | once an order has left DRAFT its lines keep their terms and only receive more, its status only moves on, and a received or cancelled order never changes |
| Purchasing.ReceiveMeaning | backend/app/purchasing/service.py:621-803 | a receipt is accepted exactly when the order is receiving, the place exists, every line is known with the lot number it needs, and all it brings fits line by line; it books exactly what it brings, and the order is RECEIVED exactly when that completes every line |
| Purchasing.RefusalMeaning | backend/app/purchasing/service.py:643-673 | a delivery that would fit the order but not what is left of it is a conflict; an unknown line, more than was ordered, or a lot number missing or out of place is a mistake in the request |
| Purchasing.DeliveriesAscend | backend/app/purchasing/service.py:634-642 | deliveries are executed by product, then lot number with none before any, then line, however the request lists them |
| Purchasing.AcceptAllMeaning | backend/app/purchasing/service.py:731-783 | the cumulative pass accepts exactly what fits in total, however it is split and ordered |
| Purchasing.FirstPassIsNotEnough | backend/app/purchasing/service.py:643-661 | two deliveries to one line that the first pass lets through and the second refuses |
| Purchasing.PurchaseOrder.CreateReceipt | backend/app/purchasing/service.py:621-803 | both passes as loops; the order stays sound and only receives more, and a refusal leaves no trace |
| Purchasing.PurchaseOrder.Add | backend/app/purchasing/service.py:219-227 | a draft gets one more line, its base quantity its packages times its factor and nothing received; refused outside a draft, and then nothing changes; the order stays sound |
| Purchasing.PurchaseOrder.Update | backend/app/purchasing/service.py:244-266 | the line of that id, and no other, gets the new terms and their base quantity; refused outside a draft and for an unknown line; the order stays sound |
| Purchasing.PurchaseOrder.Remove | backend/app/purchasing/service.py:278-286 | the line of that id goes and every other stays; refused outside a draft and for an unknown line; the order stays sound |
| Purchasing.PurchaseOrder.PlaceOrder | backend/app/purchasing/service.py:328-337 | a placed order is sound: it has lines, none of them complete, and nothing received |
| Purchasing.PurchaseOrder.CancelOrder | backend/app/purchasing/service.py:353-360 | a cancelled order is sound: nothing was received, its lines are as they were; refused once anything has arrived |
| RateLimiter.SlidingWindowRateLimiter.IsLimited | backend/app/core/rate_limit.py:63-66 | the answer is what counting the key's full log in its window gives |
| RateLimiter.SlidingWindowRateLimiter.Record | backend/app/core/rate_limit.py:68-78 | adds one hit to the log; a key is evicted only when a new key meets a full table in which nothing could be pruned, and it is the one touched longest ago |
| RateLimiter.SlidingWindowRateLimiter.PruneExpired | backend/app/core/rate_limit.py:43-49 | drops exactly the expired keys, at most every thirty seconds, and no hit that still counts |
| RateLimiter.SlidingWindowRateLimiter.RecentHits | backend/app/core/rate_limit.py:51-61 | returns the hits of the window and moves the key to the end, or forgets it |
| RateLimiter.SlidingWindowRateLimiter.Reset | backend/app/core/rate_limit.py:80-84 | forgets one key |
| RateLimiter.SlidingWindowRateLimiter.Clear | backend/app/core/rate_limit.py:86-90 | forgets everything, log and table alike, and stays valid |
| RateLimiter.RecentIsTheWindow | backend/app/core/rate_limit.py:51-54 | the hits of a window are exactly those after its start, counted once each |
| RateLimiter.TimePasses | backend/app/core/rate_limit.py:51-54 | as time passes, table and log keep showing the same hits inside every window |
| RateLimiter.ExpiredIsOld | backend/app/core/rate_limit.py:46-49 | an expired key has no hit left that counts |
| RateLimiter.TableFacts | backend/app/core/rate_limit.py:33-41 | both maps and the order hold the same keys, never more than the bound |
| Outbox.OutboxIsSafe | backend/app/jobs/service.py:60-108 | in every interleaving of workers and crashes claims are disjoint, PENDING means fewer than five attempts, all failed, FAILED exactly five, all failed, and SENT exactly one committed delivery |
| Outbox.BatchesAreBounded | backend/app/jobs/service.py:60-108 | with nothing new queued, non-empty commits plus the attempts left never exceed the attempts there were, whatever SMTP answers |
| Outbox.AnyWorkersDrain | backend/app/jobs/service.py:90-108 | once no batch is open, as many further batches as there are attempts left, by any workers, of any sizes, whatever SMTP answers, leave nothing pending |
| Outbox.BatchMarks | backend/app/jobs/service.py:60-108 | whatever else is in progress, a worker's poll, sends and commit mark exactly the messages claimed, one attempt each, sent, failed or pending as SMTP answered, and change no other message and no other claim |
| Outbox.PollClaims | backend/app/jobs/service.py:60-73 | an idle worker's poll claims something whenever a message is pending and not locked |
| Outbox.EmptyBatch | backend/app/jobs/service.py:60-73 | with nobody else at work, an empty batch means that nothing is pending |
| Outbox.ClaimableAreOldest | backend/app/jobs/service.py:60-73 | a free message that is left out is later than all that are claimed, and the batch is full |
| Outbox.ClaimableAreFree | backend/app/jobs/service.py:60-73 | a batch is distinct pending unlocked messages in order |
| Outbox.Mailbox.ProcessBatch | backend/app/jobs/service.py:90-108 | marks exactly the claimed messages by what SMTP answered, and a non-empty batch uses up attempts |
| Outbox.Mailbox.MarkSent | backend/app/jobs/service.py:76-80 | the message is final, every row stays sensible, and the attempts left over all pending messages go down |
| Outbox.Mailbox.MarkFailed | backend/app/jobs/service.py:83-87 | the fifth failure is final and any other leaves the message pending, every row stays sensible, and the attempts left over all pending messages go down |
| Outbox.Mailbox.RunForever | backend/app/jobs/worker.py:56-76 | after as many polls that did not raise as there were attempts left, nothing is pending |
| Pricing.RetailPriceIsLeast | backend/app/pricing/service.py:134-147 | the automatic price is the least multiple of five cents not below the calculation |
| Pricing.EveryStepIsExplained | backend/app/pricing/service.py:294-495 | every operation on every product: no manual price moves unless its owner sets or clears it, no change of price is missing from the history, and a new price is the owner's or the one computed from the inputs and rules as given |
| Repricing.WhoIsRepriced | backend/app/pricing/service.py:294-774 | an operation is refused exactly when its request is, or one affected product cannot be priced; accepted, it gives every affected product its automatic price from the inputs and rules as given (or keeps a manual one) and one more line of history, and leaves every other product as it was. Affected are: every automatic product when a tax changes, those of the category when its pricing changes, those with no formula of their own when the shop's is saved, and the product itself when its inputs, received cost or formula are set or its manual price is cleared |
| Repricing.RefusalsSayWhy | backend/app/pricing/service.py:294-774 | something not found, a cost reviewed against another one, or a request that is wrong in itself or asks for a price that cannot be computed: each refusal says which |
| Repricing.PriceSpelledOut | backend/app/pricing/service.py:58-170 | the automatic price in its own terms: each input the product's own, else its category's, else the default; the fixed margin on top of whatever formula applies |
| Repricing.TaxesAddUp | backend/app/catalog/taxes.py:18-44 | however a product's taxes are listed, their rates add up, inactive ones counting for nothing |
| Repricing.ReceivedIsPerUnit | backend/app/purchasing/service.py:440-446 | a received cost times the units of its package is the package's cost, to within half a millionth a unit |
| Pricing.PriceMatchesRow | backend/app/pricing/service.py:294-361 | when every number of a request has six decimals, a new price that is not the owner's is the automatic price of the row and rules as they stand afterwards |
| Pricing.RunStores | backend/app/pricing/service.py:316-361 | after any run every stored input, tax and category margin has six decimals |
| Pricing.TooFineACost | backend/app/pricing/service.py:316-361 | a cost of seven decimals: the price is five cents above the automatic price of the stored row, and saving it again adds to the history |
| Pricing.ManualPriceStays | backend/app/pricing/service.py:294-313 | over any run in which nobody sets or clears it, a manual price does not move and the history is only added to |
| Pricing.HistoryEndsInPrice | backend/app/pricing/service.py:231-247 | after any run a non-empty history ends in the price shown |
| Pricing.ReapplyingCostsIsNoOp | backend/app/purchasing/service.py:487-503 | confirming the same receipt costs again changes nothing, whatever cost is expected |
| Pricing.SavingAgainIsNoOp | backend/app/pricing/service.py:342-352 | saving the same inputs again changes nothing, not even the history, exactly when every number in the request has six decimals |
| Pricing.CostAllTouchesOnce | backend/app/purchasing/service.py:496-503 | costing distinct products gives each its own result and leaves the others alone |
| Pricing.PriceBook.SetPricingInputs | backend/app/pricing/service.py:316-361 | inputs that end up as they were change nothing; otherwise one recomputation and one history entry |
| Pricing.PriceBook.FixPrice | backend/app/pricing/service.py:450-470 | afterwards the price is manual and what is stored of the one given, the history ends in it with nothing lost, and no other product has changed |
| Pricing.PriceBook.Recompute | backend/app/pricing/service.py:529-540 | the recomputation loop reprices and records exactly the selected automatic products, or nothing if one formula fails |
| Pricing.PriceBook.ApplyReceivedCosts | backend/app/purchasing/service.py:449-505 | all expectations are checked before any product changes |
| Layout.Parse | backend/app/tickets/layout.py:98-140 | accepts exactly the well-formed chunk sequences; the tree with its loop tags put back is the sequence; a refusal names the first problem from the left |
| Layout.Read | backend/app/tickets/layout.py:101-137 | reads to the end or past the closing tag of its loop; nesting is refused and it terminates |
| Layout.WellFormedMeaning | backend/app/tickets/layout.py:101-137 | reading from the left finds no problem exactly when tags are legal and loops open and close in turn |
| Layout.TreeIsUnique | backend/app/tickets/layout.py:98-140 | two trees with the same tokens are the same tree |
| Layout.TagsAreRead | backend/app/tickets/layout.py:101-131 | a tag, with any blanks inside its marks, is read as the expression or loop between them when the grammar allows it, and refused otherwise |
| Layout.TextIsRead | backend/app/tickets/layout.py:132-135 | a chunk is text, kept as it is, exactly when no tag mark occurs in it |
| Layout.BrokenTagsAreRefused | backend/app/tickets/layout.py:132-133 | a chunk with a mark in it that is not one whole tag is a tag left open |
| Layout.Wrap | backend/app/tickets/layout.py:200-207 | the pieces of a line are all of it, each full but the last, and each row is its piece without trailing blanks, within the width |
| Layout.WrapAll | backend/app/tickets/layout.py:195-208 | the same for every line of a receipt |
| Layout.TwoColumn | backend/app/tickets/render.py:83-100 | all of the left text in order, then blanks, then the right text; when the right text fits, every row is within the width and the last one ends flush with it |

## Left out

- Till.CheckoutKeeps: stock, terminal and cashier checks of a checkout appear as `Abort`; stock is the subject of `CheckoutStock`, locks that of `LockOrder`.
- Till.CloseKeeps: promoting a legacy non-final Z, and the identity snapshot printed on a Z.
- Till.ReturnKeeps: the refund a return books is a parameter of the protocol; its amount is the subject of `Returns`.
- LockOrder.CheckoutAscends: locks on rows a transaction inserts itself, foreign-key share locks, and `record_transfer`, which locks source before destination and so does not follow the order.
- Returns.CompletedSale.CreateReturn: the catalogue checks inside the passes (`validate_inventory_context`) and creating the lots; the balance side of the ledger entries is in `Inventory`.
- Idempotency.Service.Handle: what each operation checks again before it shows a replayed result (terminal, status), and the texts of fingerprints other than checkout's, which are canonical in the same way.
- Idempotency.InterleavingsAreSerial: the guarded work is one atomic step; `Till` and `LockOrder` look inside it.
- Inventory.Stockroom.Adjust: creating a lot from the number on its package.
- Inventory.Stockroom.RecordMovement: unit cost, reference and user of a movement, which nothing here reads.
- Lots.FefoMeaning: the product's own context errors, which `Lots.PlanFefo` returns before it plans.
- CheckoutStock.AssertStockAvailable: which product's name the refusal shows.
- Cart.OpenPricesAreCharged: entries with a discount or a supplement, which the round trip does not promise.
- Purchasing.ReceiveMeaning: lot creation and the stock movements of a receipt, which are ordinary `Inventory` movements.
- RateLimiter.SlidingWindowRateLimiter.Record: one window per key, as its callers use it.
- Outbox.Mailbox.ProcessBatch: message texts and error texts; mail sent by a batch that is then rolled back is sent again.
- StockRuns.ProjectionAgreement: deleting a product created by mistake, which removes its adjustments and its balance rows together.
- Pricing.HistoryEndsInPrice: the effective rates, margins and formula that a history row carries beside its price and cost.
- Pricing.EveryStepIsExplained: deleting a product and its history; evaluating a formula and validating its text, which are parameters; that an automatic price always matches current inputs, which clearing a formula or changing category does not promise.
- Layout.Parse: the regular expressions that split and recognise tags, which are parameters; looking up values and alignment filters.
- Ticket and dashboard amounts, which ignore a presentation's own price and read the live fiscal mode, so they are not tied to what was charged.
- Decimal's 28-digit context, tender amounts finer than a millionth, and timezone changes during a run.
- Routers, schemas, presenters, audit log, sessions, permissions, signing, migrations, settings, reports, suppliers, images and the whole frontend: plumbing, or easier members.
