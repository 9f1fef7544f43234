# Computer room manager: a verified model of its money-and-time engine

The system rents computers by the minute, sells packages and products, charges subscriptions and print jobs, and
keeps every customer's balances in an append-only ledger. This project models that engine service by service in Dafny
and proves what the services keep together, over every sequence of calls from an empty store.

## How the model is built

Each service is a class whose fields are its database tables (`BalanceService`, `SessionsService`, `SalesService`,
`PaymentsService`, `SubscriptionsService`, `PrintService`, `CashService`, `AuthService`) and whose methods follow the
code step by step, error paths and rollbacks included. Each method's `ensures` equates the new tables with a
specification function of the old ones. The lemmas then prove the promised properties about those functions.
Pure code (pricing, CSV) is functions and lemmas only.

| file | what it holds |
|---|---|
| `Common.dfy` | ids, results, sums over finite tables |
| `Money.dfy` | rounding and the session price |
| `Ledger.dfy` | balances and ledger rows, replay |
| `Sessions.dfy`, `SessionProofs.dfy`, `SessionCalls.dfy` | the session state machine; exclusivity, time, bills, conservation; acceptance and effect of each call |
| `Calendar.dfy`, `Catalogue.dfy`, `Subscriptions.dfy` | UTC date setters, price rows, the charging sweep |
| `Sales.dfy`, `SaleProofs.dfy`, `Carts.dfy` | carts, coupons, VAT, payment and settlement; the shop's invariant; what a cart becomes and when it is refused |
| `Payments.dfy`, `PaymentProofs.dfy`, `PaymentCalls.dfy`, `Orders.dfy` | prepare, callback, dev settle; repetition, the two payment paths, standing orders |
| `Admin.dfy` | edits of VAT, new packages, products, coupons, customers and print price rules |
| `Printing.dfy`, `Cash.dfy`, `Drawer.dfy` | print charging, cash shifts, the running drawer counter |
| `Tokens.dfy` | refresh-token rotation families |
| `Base32.dfy`, `Totp.dfy`, `Csv.dfy` | the codecs |
| `World.dfy`, `Results.dfy` | all services over one ledger: the joint invariant and the system-wide results |

`World.Reachable` is the set of states that some sequence of allowed calls, of any services in any order, reaches from
a store without ledger rows, sessions, sales, subscriptions, jobs or shifts, whatever has been set up in it. The lemmas
of `Results` are about every such state and every continuation of it.

## Assumptions

- Each service call is one atomic step; calls are serial. A database transaction is all or nothing.
- Newly drawn ids and tokens are new; the clock does not go backwards; times are whole milliseconds (subscriptions: UTC).
- Numbers are exact: unbounded integers, and exact rationals for ratios, prices and VAT, with `Math.round` as
  floor(x + 1/2). Prices, minimum charges and coupon values are not negative. Ratios may have any sign where a result
  does not say otherwise.
- A session that was opened has both its start and its billing checkpoint set, as `open` always does.
- Administrators edit the VAT percentage, price groups and computers, and add packages, products, coupons, customers
  and print price rules, at any time; these are steps of the model like any other. Packages, coupons and customers are
  not edited in a way that matters here once they exist, and cash registers are a constant of a run: no code does either.
- Double precision compares an amount in shekels with an expected 32-bit one in agorot exactly, except within a
  thousandth of an agora around a difference of one agora (`ComparesClosely`).
- Rows are read back in the order they were written where the code relies on an order and names none (sale items).
  The due subscriptions of a sweep and the sales of a shift come in any order.
- `segments` of a session, `vat` of a sale and `sale` of a subscription are history variables: no operation reads them.
- HMAC-SHA-1 is any function to twenty bytes; stored token hashes stand for the tokens.

## Where the code and its description part

- The paused gap is described as free. Moving a paused session bills it, exactly when the gap has lasted at least one
  whole second (`TransferBillsPausedGap`, with an input in `PausedGapBilledExample`).
- A settling callback is meant to match the expected amount. The comparison also lets through an amount that is not a
  number, as in `NotANumberSettles`; a number must be within one agora (`SettlingAmount` has both directions). Exactly
  one agora off, the rounding of floating point decides: 0.30 is refused where 29 agorot are expected, 50.01 passes
  where 5000 are.
- A one-time password is meant to be compared with three steps. In the first thirty seconds of the epoch the previous
  counter is -1 and the call throws instead (`ThrowsIffFirstStep`).
- A secret whose length is no multiple of five bytes loses bits in its text; the round trip is exact if and only if
  five divides the length (`RoundTrip`).
- A decoder that skips what is not in the alphabet does so after upper-casing: the dotless i counts (`DotlessCounts`).
  What is skipped are the characters whose upper case has nothing of the alphabet (`DecodeIgnoresNoise`).
- A monthly period does not always end on the same day of the next month: it does exactly when that month has the day
  (`MonthlyKeepsDayIff`, with 31 January in `MonthEndExample`); it always adds the length of the current month.
- The design describes prices as frozen when a session opens (docs/database-design.md:59-63). The code bills at the
  group's current price, and so does the model: `EditedPriceExample` is an input that shows it. A session keeps its
  opening price exactly when every call that bills it finds that price (`PriceKeptIff` for a call, `FrozenPriceIff` for
  a run). A computer can also be put into another group during a session, with the same effect
  (`RegroupedPriceExample`); staying on one computer that stays in one unedited group is enough (`OneComputerOnePrice`).
- The VAT of a sale is that of the percentage in force when it is made, whatever edits follow (`TaxIsOfItsTime`). It is
  not that of the tenant's present percentage after an edit (`EditedVatExample`).

## Model

| member | source | states |
|---|---|---|
| Money.RoundUpIsLeast | packages/shared/src/money.ts:24-29 | rounding UP gives the least whole currency unit not below the amount |
| Money.RoundNearestIsClosest | packages/shared/src/money.ts:24-29 | rounding NEAREST gives a whole unit within 50, and no whole unit is closer |
| Money.RoundMinorLaws | packages/shared/src/money.ts:24-29 | every rule is idempotent and monotone, and widens a gap to at most the next whole unit |
| Money.ChargeMonotone | packages/shared/src/money.ts:35-49 | the session charge grows with seconds, price, ratio, minimum charge and minimum minutes, and is never below the minimum charge |
| Money.SixtySecondsAMinute | packages/shared/src/money.ts:35-49 | sixty times the exact price is seconds times price times ratio |
| Money.SessionChargeIs | packages/shared/src/money.ts:35-49 | the charge, without its own arithmetic: the nearest price of the seconds or of the minimum minutes of sixty seconds, rounded by the rule, at least the minimum charge |
| Money.RoundMinorIs | packages/shared/src/money.ts:24-29 | what each rounding rule gives, ties included |
| Ledger.BalanceService.ApplyWithin | apps/api/src/balances/balance.service.ts:40-80 | the cached balance and one ledger row change together, or an overdraft is refused and neither does |
| Ledger.RefusedIffOverdraft | apps/api/src/balances/balance.service.ts:47-56 | a change is refused exactly when replaying the ledger with it would go below zero and debt is not allowed |
| Ledger.ApplyReplays | apps/api/src/balances/balance.service.ts:40-80 | a change keeps caches and snapshots equal to the replay, non-negative, and moves only one customer's one unit |
| Ledger.Reconstructable | docs/database-design.md:49-57 | balances are reconstructable: each is the last snapshot, and equal ledgers mean equal balances |
| Ledger.ApplyRecords | apps/api/src/balances/balance.service.ts:58-80 | the row of a change says whose it is, what moved, why and by whom |
| Ledger.LoadAcceptedIff | apps/api/src/customers/customers.service.ts:153-171 | a load is accepted exactly for a customer of the tenant and adds that amount in that unit only |
| Sessions.SessionsService.OpenSession | apps/api/src/sessions/sessions.service.ts:88-150 | refusals for unknown, foreign or busy computers and customers with a live session; otherwise the new session and an occupied computer |
| Sessions.SessionsService.TransferSession | apps/api/src/sessions/sessions.service.ts:221-273 | bills the stretch at the old computer's price, frees it and occupies the target, or refuses and changes nothing |
| Sessions.SessionsService.PauseSession | apps/api/src/sessions/sessions.service.ts:292-308 | bills the stretch so far and stops the clock; pausing a paused session does nothing |
| Sessions.SessionsService.ResumeSession | apps/api/src/sessions/sessions.service.ts:318-332 | counts the gap as paused time and moves the checkpoint; resuming an active session does nothing |
| SessionProofs.FinalChargeIsBill | apps/api/src/sessions/sessions.service.ts:353-374 | the closing total is the bill of the session's segments: nothing if free, else never below the minimum charge |
| SessionProofs.BillIsRight | apps/api/src/sessions/sessions.service.ts:353-374 | the bill, without the pricing engine: each segment at the nearest price of its seconds, their sum rounded by the last rule, or all seconds at once, at least the minimum charge, nothing if free |
| Sessions.SessionsService.Deduct | apps/api/src/sessions/sessions.service.ts:376-408 | the debit from money or package time, or none |
| Sessions.SessionsService.CloseSession | apps/api/src/sessions/sessions.service.ts:342-433 | ends the session, debits the balance and frees the computer together, or changes nothing |
| SessionProofs.ExecKeeps | apps/api/src/sessions/sessions.service.ts:88-433 | every call, accepted or refused, keeps exclusivity, time accounting, segment sums, one ledger row a session and conservation |
| SessionProofs.EndedIsFinal | apps/api/src/sessions/sessions.service.ts:180-191 | no call changes the row of an ended session |
| SessionProofs.NoTransferToSelf | apps/api/src/sessions/sessions.service.ts:230-237 | a transfer to the session's own computer is refused |
| SessionProofs.TransferExclusive | apps/api/src/sessions/sessions.service.ts:230-272 | a transfer keeps one live session per computer and IN_USE exactly on occupied computers, and goes to another computer |
| SessionProofs.TransferPlaces | apps/api/src/sessions/sessions.service.ts:249-262 | a transfer frees the old computer, occupies the new one and changes no other |
| SessionProofs.CloseExclusive | apps/api/src/sessions/sessions.service.ts:410-432 | a close keeps exclusivity and frees exactly its computer, to MAINTENANCE or AVAILABLE; every other computer keeps its row |
| SessionProofs.SameSessionsKeep | apps/api/src/computers/computers.service.ts:84-130 | creating, editing or removing computers and editing groups keeps every session invariant |
| SessionProofs.TransferBillsPausedGap | apps/api/src/sessions/sessions.service.ts:239-262 | moving a paused session leaves its billed seconds alone if and only if the gap is under one second |
| SessionProofs.PausedGapBilledExample | apps/api/src/sessions/sessions.service.ts:239-262 | an input: opened, paused at once and moved after five seconds, a session is billed five seconds with no active time |
| SessionProofs.CloseRefusedIffOverdraft | apps/api/src/sessions/sessions.service.ts:376-408 | a valid close fails exactly when the balance does not cover the debit, and then nothing changes |
| SessionCalls.OpenAcceptedIff | apps/api/src/sessions/sessions.service.ts:88-150 | an opening is accepted exactly on a known free computer in scope, for no customer or a known one without a session; what it writes; otherwise which error |
| SessionCalls.PauseAcceptedIff | apps/api/src/sessions/sessions.service.ts:180-191 | acceptance and errors, the stretch billed at the live price, a paused session left alone |
| SessionCalls.ResumeAcceptedIff | apps/api/src/sessions/sessions.service.ts:318-332 | acceptance and errors, whole seconds of the pause counted and nothing billed |
| SessionCalls.AddTimeAcceptedIff | apps/api/src/sessions/sessions.service.ts:193-218 | acceptance and errors, the plan longer by the seconds and nothing else |
| SessionCalls.TransferAcceptedIff | apps/api/src/sessions/sessions.service.ts:221-273 | acceptance and errors, the stretch billed at the old computer, then the new one's branch and ratio |
| SessionCalls.CloseAcceptedIff | apps/api/src/sessions/sessions.service.ts:342-433 | acceptance and errors, time since the checkpoint counted unless paused, and whose row the debit is |
| SessionCalls.EditComputerAcceptedIff | apps/api/src/computers/computers.service.ts:105-130 | acceptance and errors, branch and group changed each only if given, removal only marks |
| SessionCalls.CreateComputerAcceptedIff | apps/api/src/computers/computers.service.ts:84-103 | acceptance and errors, a new disconnected computer |
| SessionProofs.BilledWithinActive | apps/api/src/sessions/sessions.service.ts:292-353 | billed time is at most the time ACTIVE on the timeline if never moved while paused, and at most 999 ms a segment less |
| SessionProofs.SegmentsAtOwnPrice | apps/api/src/sessions/sessions.service.ts:239-243 | closes, transfers and pauses of an active session add one segment: the whole seconds since the checkpoint at the live price; no other call adds any |
| SessionProofs.PriceKeptIff | docs/database-design.md:59-63 | a billing call keeps a session at one price if and only if that price is still in force at its computer |
| SessionProofs.EditedPriceExample | docs/development-roadmap.md:102 | an input where the price is not frozen: opened at 60 a minute, the group edited to 600, one minute costs 600 |
| SessionProofs.RegroupedPriceExample | apps/api/src/computers/computers.service.ts:105-110 | another: no group is edited, the computer is put into a group at 600 during the session |
| SessionProofs.PausingBarelyChangesThePrice | apps/api/src/sessions/sessions.service.ts:292-374 | the bound itself: k billed segments of one price without minimum time cost one stretch within (k+1)/2, or that rounded up to a whole unit |
| Catalogue.Newest | apps/api/src/pos/sales.service.ts:63-75 | the price row found passes the filter and no passing row is newer; none is found only if none passes |
| Sales.SalesService.Create | apps/api/src/pos/sales.service.ts:186-309 | the whole sale path: key, lines, coupon, tax, payment check, row, payment, effects and redemption, or no change |
| Carts.LinePriced | apps/api/src/pos/sales.service.ts:36-108 | a line's total is unit price times quantity, 1 if absent; the unit price is the product's, its own, or that of a newest package price in force, promoted exactly within the window; or which error |
| Carts.LinesPriced | apps/api/src/pos/sales.service.ts:198-204 | a cart is priced line by line, or refused with the error of its first refused line |
| Carts.CouponAppliesIff | apps/api/src/pos/sales.service.ts:206-224 | a code applies exactly if, in upper case, it is one of the tenant's active coupons, within dates and limit |
| Carts.AcceptedSale | apps/api/src/pos/sales.service.ts:186-309 | an accepted call replays a used key or has passed every check; the sale is the cart's, its payment the one tendered and at least the total |
| Carts.RefusedSale | apps/api/src/pos/sales.service.ts:186-309 | a refused call has one of the listed reasons and its error |
| Sales.SalesService.ApplyPackage | apps/api/src/pos/sales.service.ts:126-180 | the package's credits through the ledger in order, then the purchased package |
| SaleProofs.PointsPerTenShekels | apps/api/src/pos/sales.service.ts:111-123 | one point per whole ten shekels to that customer only; splitting a sale earns no more and loses at most one |
| Sales.SalesService.SettleSale | apps/api/src/pos/sales.service.ts:331-405 | completes an open sale with its pending payment or a new one and delivers it, all or nothing; a completed sale is left alone |
| SaleProofs.DiscountWithinSubtotal | apps/api/src/coupons/coupons.module.ts:21-30 | 0 <= discount <= subtotal for every coupon and subtotal |
| SaleProofs.DiscountIs | apps/api/src/coupons/coupons.module.ts:21-30 | nothing below the minimum purchase; a fixed sum or the nearest percentage, capped by the subtotal |
| SaleProofs.TaxIsNearest | apps/api/src/pos/sales.service.ts:226-233 | the embedded VAT is total*vat/(100+vat) to the nearest minor unit and lies between 0 and the total |
| SaleProofs.TaxMonotone | apps/api/src/pos/sales.service.ts:226-233 | a larger total never has a smaller tax |
| SaleProofs.NewSaleAmounts | apps/api/src/pos/sales.service.ts:204-233 | every new sale's subtotal, discount, tax and total fit together, at the VAT percentage in force |
| SaleProofs.CreditsByUnit | apps/api/src/pos/sales.service.ts:134-151 | unit by unit, what a package of each type credits, each unit at most once |
| SaleProofs.ItemsCredited | apps/api/src/pos/sales.service.ts:134-165 | the sale's ledger rows grow by exactly the credits of its package lines, one set a line whatever the quantity |
| SaleProofs.ItemsOwned | apps/api/src/pos/sales.service.ts:167-179 | one purchased package per package line, for the sale's customer only |
| SaleProofs.ResolvedIsLookup | apps/api/src/pos/sales.service.ts:61-95 | the package a line was priced from is the one a later settlement looks up |
| SaleProofs.RedeemKeeps | apps/api/src/pos/sales.service.ts:206-224 | a sale redeems its coupon once, for its discount, within the coupon's limit |
| SaleProofs.CreateKeeps | apps/api/src/pos/sales.service.ts:186-309 | creating a sale keeps the shop's invariant and writes ledger rows of that sale only |
| SaleProofs.SettleKeeps | apps/api/src/pos/sales.service.ts:331-405 | settling keeps the shop's invariant, completes the sale and writes ledger rows of that sale only |
| Carts.SettlementPays | apps/api/src/pos/sales.service.ts:345-372 | which payment a settlement completes or adds, and with which fields |
| Carts.ItemsRecorded | apps/api/src/pos/sales.service.ts:153-165 | the ledger rows of a delivery are PACKAGE credits of its tenant, customer, sale and actor |
| Carts.OwnedHolds | apps/api/src/pos/sales.service.ts:167-179 | a purchased package holds what its line credited, the line's price and its snapshot |
| Carts.RefundAcceptedIff | apps/api/src/pos/sales.service.ts:443-469 | a refund is accepted exactly with the permission, on the tenant's sale in scope, up to its completed payment |
| PaymentCalls.SettleAcceptedIff | apps/api/src/pos/sales.service.ts:331-405 | a settlement is refused for no or another tenant's sale or an overdraft; a completed sale is left alone |
| Payments.PaymentsService.PreparePayment | apps/api/src/payments/payments.module.ts:70-93 | an open sale and one pending card payment with the token, or no change |
| PaymentCalls.PreparedIs | apps/api/src/payments/payments.module.ts:70-93 | refused unconfigured or for the cart's reasons; otherwise an open sale of the cart and one pending card payment of exactly its total |
| PaymentCalls.DevSettleAcceptedIff | apps/api/src/payments/payments.module.ts:231-245 | refused in production and for unknown payments; otherwise the settlement of the payment's sale with it |
| Payments.PaymentsService.HandleCallback | apps/api/src/payments/payments.module.ts:149-215 | ignores what it cannot match; otherwise settles and records standing orders |
| Payments.PaymentsService.DevSettlePayment | apps/api/src/payments/payments.module.ts:231-245 | settles the named payment's sale outside production |
| PaymentProofs.ExecKeeps | apps/api/src/payments/payments.module.ts:70-245 | sales, prepares, callbacks, dev settles and refunds keep the invariants of shop and subscriptions |
| PaymentProofs.CompletedIffPaidOnce | apps/api/src/pos/sales.service.ts:331-405 | a sale is completed if and only if it has exactly one completed payment, open if and only if it has none |
| PaymentProofs.SettlesUnlessRefused | apps/api/src/payments/payments.module.ts:149-184 | a callback that goes through changes the shop if and only if it names a pending payment and a transaction and its amount is not refused; then the sale is completed |
| PaymentProofs.RefusedAmounts | apps/api/src/payments/payments.module.ts:172-177 | less than an agora off is not refused and more is; in whole agorot only the exact amount and its neighbours can pass; one agora off is left to floating point |
| PaymentProofs.SettlingAmount | apps/api/src/payments/payments.module.ts:149-184 | the amount of a settling callback is within one agora of the sale's total, up to that rounding, if and only if it is a number; every exact amount, and every amount that is no number, settles |
| PaymentProofs.NotANumberSettles | apps/api/src/payments/payments.module.ts:157-177 | an input where an amount that is no number settles a sale of fifty shekels |
| PaymentProofs.RepeatedCallbackIsNoOp | apps/api/src/payments/payments.module.ts:163-170 | once a token's payment is paid, any callback with it changes nothing in any later state |
| PaymentProofs.SettleTwiceIsOnce | apps/api/src/pos/sales.service.ts:325-342 | a second settlement of a sale, by anyone and with any payment, changes nothing |
| PaymentProofs.KeyedReplay | apps/api/src/pos/sales.service.ts:189-196 | a used key returns the first sale and changes nothing, whatever the cart and however much later |
| PaymentProofs.OnePaymentPerKey | packages/database/prisma/schema.prisma:1239 | at most one payment per tenant and key |
| PaymentProofs.PayNowEqualsPayLater | apps/api/src/pos/sales.service.ts:186-405 | paying the total at once, under any unused key or none, and settling later succeed together and end with the same tables, and the same ledger up to the actor |
| PaymentProofs.PayNowEqualsPrepareAndSettle | apps/api/src/payments/payments.module.ts:70-184 | the same for the external path of prepare and settlement by its own pending payment, each ending with exactly the total paid |
| Orders.ExecOrders | apps/api/src/payments/payments.module.ts:188-209 | a call that names a standing order for a sale records one subscription per plan line; any other leaves its subscriptions alone |
| Admin.LaterSetupKeeps | apps/api/src/catalog/catalog.module.ts:49-75 | edits of VAT and new packages, products, coupons and customers keep every invariant of stored sales, credits and redemptions |
| Admin.SetVatIs | apps/api/src/settings/settings.module.ts:46-60 | the percentage is set for that tenant only, within 0 to 100 |
| Admin.NewItemsSell | apps/api/src/catalog/catalog.module.ts:49-75 | a new package or product sells at its price from now on |
| Admin.NewCouponIs | apps/api/src/coupons/coupons.module.ts:46-62 | a new coupon is usable under its code in upper case, which is taken once per tenant |
| Admin.NewRuleIs | apps/api/src/printers/printers.module.ts:60-76 | a new print price rule is the price unless a newer one is valid |
| Calendar.AdvanceAddsDays | apps/api/src/subscriptions/subscriptions.module.ts:16-22 | an advance keeps the clock time and adds 7 days, the length of the current month, or a year's length |
| Calendar.MonthlyKeepsDayIff | apps/api/src/subscriptions/subscriptions.module.ts:16-22 | the day of the month is kept if and only if the next month has it |
| Calendar.MonthEndExample | apps/api/src/subscriptions/subscriptions.module.ts:16-22 | an input where it is not: a month from 31 January is the 2nd or 3rd of March |
| Calendar.CivilRoundTrip | apps/api/src/subscriptions/subscriptions.module.ts:16-22 | every date is recovered from its day number |
| Calendar.CivilOfIsRight | apps/api/src/subscriptions/subscriptions.module.ts:16-22 | every day number has a real date that gives it back |
| Subscriptions.SubscriptionsService.ProcessDue | apps/api/src/subscriptions/subscriptions.module.ts:109-155 | the sweep over the due rows in the query's order; charged + pastDue = considered |
| Subscriptions.SweptIff | apps/api/src/subscriptions/subscriptions.module.ts:109-148 | whatever the query's order, a row is charged, advanced or set past due if and only if it is the tenant's, running, renewing, and its period has ended by now |
| Subscriptions.OtherTenantsUntouched | apps/api/src/subscriptions/subscriptions.module.ts:109-148 | a sweep takes money only, and only from customers of such rows |
| Subscriptions.SweepOneRecords | apps/api/src/subscriptions/subscriptions.module.ts:123-133 | the row of a charge is the tenant's, for use, by the actor |
| Subscriptions.SubscriptionsService.CreateSubscription | apps/api/src/subscriptions/subscriptions.module.ts:48-75 | a plan's newest open-ended price and interval, first period from now |
| Subscriptions.CreateAcceptedIff | apps/api/src/subscriptions/subscriptions.module.ts:48-75 | accepted exactly for one of the tenant's plans and a known customer; price, interval and first period |
| Subscriptions.ExternalNeverCharged | apps/api/src/subscriptions/subscriptions.module.ts:77-105 | a row that the provider bills is never charged or changed by a sweep, of any tenant at any time |
| Subscriptions.SubscriptionsService.CancelSubscription | apps/api/src/subscriptions/subscriptions.module.ts:157-164 | cancelled and no longer renewing |
| Subscriptions.CancelAcceptedIff | apps/api/src/subscriptions/subscriptions.module.ts:157-164 | accepted exactly for the tenant's own, and then cancelled for good |
| Subscriptions.ExternalIs | apps/api/src/subscriptions/subscriptions.module.ts:81-105 | what a row that the provider bills takes from the payment and the package |
| Subscriptions.SweepOneKeeps | apps/api/src/subscriptions/subscriptions.module.ts:121-148 | an item is charged and advanced exactly when the balance covers its price, else only set past due |
| Subscriptions.SweepTreats | apps/api/src/subscriptions/subscriptions.module.ts:121-148 | each due row is charged once and advanced, or set past due without a row |
| Subscriptions.NonRenewingUntouched | apps/api/src/subscriptions/subscriptions.module.ts:110-117 | a row with autoRenew false is never charged or changed by a sweep |
| Subscriptions.SweepReducesOverdue | apps/api/src/subscriptions/subscriptions.module.ts:109-148 | a sweep with something due lowers the total overdue time, whatever the balances |
| Subscriptions.CatchUpEnds | apps/api/src/subscriptions/subscriptions.module.ts:109-148 | at a fixed clock, sweeps that find something due are no more than the initial overdue time |
| Tokens.LoginStartsFamily | apps/api/src/auth/auth.service.ts:107-136 | a login's token is the whole of its family and can be exchanged until it expires; no other token's fate changes |
| Tokens.AuthService.RefreshToken | apps/api/src/auth/auth.service.ts:139-192 | rotation, refusal, or revocation of the family on reuse |
| Tokens.RefreshHandsOver | apps/api/src/auth/auth.service.ts:158-192 | the new token keeps owner, tenant and family and can be exchanged for its lifetime; the old one cannot; no other token's fate changes |
| Tokens.LogoutEndsToken | apps/api/src/auth/auth.service.ts:194-201 | the presented token is never accepted again, with a family's newest token the family ends, and no other token's fate changes |
| Tokens.RunKeeps | apps/api/src/auth/auth.service.ts:139-201 | over every sequence of calls families stay linear, and a dead family stays dead |
| Tokens.OnlyNewestRefreshes | apps/api/src/auth/auth.service.ts:139-178 | in every reachable state a refresh succeeds if and only if its token is unexpired and unrevoked, which makes it its family's newest |
| Tokens.RotatedTokenIsSpent | apps/api/src/auth/auth.service.ts:149-178 | a rotated token presented again fails and ends its family |
| Tokens.ReplayEndsFamily | apps/api/src/auth/auth.service.ts:149-156 | after a revoked, unexpired token is replayed no token of its family is accepted in any continuation |
| Base32.GenerateBase32Secret | apps/api/src/auth/totp.ts:10-19 | the two loops compute the regrouping of the bytes' bits into five-bit letters |
| Base32.Base32Decode | apps/api/src/auth/totp.ts:21-34 | the two loops compute the regrouping of the letters' bits into bytes |
| Base32.DecodeIgnoresNoise | apps/api/src/auth/totp.ts:22-28 | characters whose upper case has nothing of the alphabet, padding and white space among them, may be inserted anywhere |
| Base32.AsciiIgnoredIff | apps/api/src/auth/totp.ts:22-28 | an ASCII character may be inserted so if and only if it is none of A-Z, a-z, 2-7 |
| Base32.DotlessCounts | apps/api/src/auth/totp.ts:22 | outside ASCII others count: two dotless i's, not in the alphabet, decode to a byte |
| Base32.DecodeIgnoresCase | apps/api/src/auth/totp.ts:22 | texts that are equal in upper case decode alike |
| Base32.RoundTrip | apps/api/src/auth/totp.ts:10-34 | decoding the encoder's text of n bytes gives the first floor(5*floor(8n/5)/8) of them, all if and only if 5 divides n |
| Base32.EncodesTheNumber | apps/api/src/auth/totp.ts:10-19 | the letters, as digits to base 32, write the number the bytes write to base 256 |
| Totp.TotpCode | apps/api/src/auth/totp.ts:37-49 | counter bytes, MAC of the decoded secret, shifts and ORs give the standard's six digits |
| Totp.VerifyTotp | apps/api/src/auth/totp.ts:52-58 | the loop over the three drifts, each with its code, malformed codes refused first |
| Totp.TruncationIsBigEndian | apps/api/src/auth/totp.ts:42-47 | the shifts and ORs give the big-endian 31-bit value of four bytes inside the digest |
| Totp.HotpIsTruncation | apps/api/src/auth/totp.ts:38-47 | the standard's number is the truncation of the MAC of the counter |
| Totp.CounterBytes | apps/api/src/auth/totp.ts:38-40 | the counter bytes determine the counter |
| Totp.CodesAgreeIff | apps/api/src/auth/totp.ts:48 | codes of any keys and counters have six digits, and agree exactly when the truncated MACs agree modulo a million |
| Totp.AcceptsThreeSteps | apps/api/src/auth/totp.ts:37-58 | from the second step on a secret accepts exactly the standard's codes of its decoded bytes for the previous, current and next counter |
| Totp.ThrowsIffFirstStep | apps/api/src/auth/totp.ts:38-54 | a well-formed code makes the call throw if and only if the time is within the first step |
| Totp.AcceptedWithinThirtySeconds | apps/api/src/auth/totp.ts:37-58 | the code a secret gives at t is accepted at every now within 30 seconds of t |
| Totp.EnrolledKeyAccepted | apps/api/src/auth/totp.ts:10-58 | an authenticator that holds the bytes behind a generated secret is accepted in the same window |
| Csv.CellRoundTrip | apps/api/src/data/data.module.ts:14-17 | a cell with any quotes, commas and newlines is read back exactly |
| Csv.QuotedIff | apps/api/src/data/data.module.ts:14-17 | a cell is quoted exactly if it has a quote, comma or newline |
| Csv.GridRoundTrip | apps/api/src/data/data.module.ts:33-51 | a reader recovers every written grid, of any shape |
| Csv.ExportDetermines | apps/api/src/data/data.module.ts:33-51 | two grids under one header export to the same text if and only if they are equal |
| Csv.CustomerExportDetermines | apps/api/src/data/data.module.ts:27-52 | two customer files are equal if and only if the customers are, up to how missing values print |
| Csv.CellsUnderColumns | apps/api/src/data/data.module.ts:27-52 | every cell of a customer stands under the name of its column |
| Printing.NewJobPrice | apps/api/src/print/print.module.ts:79-105 | a new job waits, costs every page of every copy at the price of a newest valid rule or the default, and touches no other job |
| Printing.PrintService.ApproveJob | apps/api/src/print/print.module.ts:114-160 | charges the page quota if it covers the job, else money; refused means unchanged |
| Printing.QuotaFirst | apps/api/src/print/print.module.ts:123-155 | an approval takes exactly the pages from the quota of the colour if the replayed quota covers them, otherwise exactly the price from money, and nothing else |
| Printing.ApproveAndCancelRefusals | apps/api/src/print/print.module.ts:114-177 | only a pending job of the tenant can be approved, any of its jobs cancelled |
| Printing.PrintService.Cancel | apps/api/src/print/print.module.ts:171-177 | cancels a job in any status |
| Printing.ExecKeeps | apps/api/src/print/print.module.ts:79-177 | every call keeps: at most one ledger row a job, wholly quota or wholly money, none while pending |
| Printing.RefusedIffNeitherCovers | apps/api/src/print/print.module.ts:123-155 | a pending job is refused exactly when neither quota nor money covers it |
| Printing.ChargedAtMostOnce | apps/api/src/print/print.module.ts:115-118 | an approved job cannot be approved again, even after a cancellation |
| Cash.CashService.Open | apps/api/src/pos/cash.service.ts:16-42 | one open shift a register, with its opening float |
| Cash.CashService.AddMovement | apps/api/src/pos/cash.service.ts:51-66 | movements only on open shifts |
| Cash.CashService.ExpectedCash | apps/api/src/pos/cash.service.ts:76-107 | the loops compute float and deposits less payouts and drops plus cash payments less refunds, in any order of the sales |
| Cash.CashService.Close | apps/api/src/pos/cash.service.ts:109-136 | closes with the counted cash, the expected cash and their difference |
| Cash.CloseShiftKeeps | apps/api/src/pos/cash.service.ts:109-136 | the variance is counted less the cash expected at that moment; other closed shifts are untouched |
| Cash.MovementMoves | apps/api/src/pos/cash.service.ts:51-97 | floats and deposits add, payouts and drops subtract, counts and adjustments do nothing, in their own open shift only |
| Cash.OpenAcceptedIff | apps/api/src/pos/cash.service.ts:16-42 | a shift opens exactly on the tenant's register without an open one, with its float |
| Cash.CloseAcceptedIff | apps/api/src/pos/cash.service.ts:109-136 | a shift closes exactly if it is the tenant's and open; what is stored |
| Cash.ExecMovesCash | apps/api/src/pos/cash.service.ts:51-143 | each till call moves every shift's expected cash by exactly its own amount |
| Drawer.ExecMovesCash | apps/api/src/pos/cash.service.ts:76-107 | each sale, settlement or refund moves every shift's expected cash by exactly its cash part |
| World.ExecKeeps | apps/api/src/balances/balance.service.ts:26-31 | any service's call keeps every service's invariant over the shared ledger |
| World.RunKeeps | apps/api/src/balances/balance.service.ts:26-31 | so does every sequence of calls, and it keeps the past |
| Results.LedgerAlwaysReplays | apps/api/src/balances/balance.service.ts:40-80 | in every reachable state each balance is the replay and the last snapshot, each snapshot is its prefix sum, and none is negative |
| Results.SessionsAlwaysExclusive | apps/api/src/sessions/sessions.service.ts:97-150 | one live session per computer and per customer of a tenant; IN_USE marks exactly the occupied computers |
| Results.TimeAlwaysAccounted | apps/api/src/sessions/sessions.service.ts:239-353 | elapsed, billed and paused time agree within 999 ms a checkpoint; billed time is active time |
| Results.EndedSessionsAreBilled | apps/api/src/sessions/sessions.service.ts:353-433 | an ended session's amount is the bill of its segments, and its ledger row, if any, is one and for that amount |
| Results.FrozenPriceIff | docs/database-design.md:59-63 | over every run a session is billed at its opening price throughout if and only if every billing call finds that price |
| Results.OneComputerOnePrice | apps/api/src/sessions/sessions.service.ts:239-353 | in a run that neither moves the session, nor puts its computer into another group, nor edits that group, every billing call finds the same price |
| Results.EndedSessionsCostAsOneStretch | apps/api/src/sessions/sessions.service.ts:292-374 | in every such run, whatever else happens, a session opened without minimum time ends within (k+1)/2 of one stretch, or that rounded up to a whole unit |
| Results.SessionMoneyConserved | apps/api/src/sessions/sessions.service.ts:376-433 | a customer's session rows sum to minus the amounts of the customer's ended money sessions |
| Results.TheEndIsFinal | apps/api/src/sessions/sessions.service.ts:180-191 | ended sessions, completed sales, closed shifts and ledger rows never change in any continuation |
| Results.SalesSettledExactlyOnce | apps/api/src/pos/sales.service.ts:331-405 | payment, ledger rows, loyalty points and purchased packages of every sale exactly once |
| Results.AmountsAlwaysRight | apps/api/src/pos/sales.service.ts:204-233 | subtotal, discount, tax and total of every stored sale, the tax at the percentage recorded for it |
| Results.PaymentsAlwaysCover | apps/api/src/payments/payments.module.ts:82-93 | in every reachable state a payment covers its sale, and a pending one is for exactly its total |
| Results.TaxIsOfItsTime | apps/api/src/settings/settings.module.ts:46-60 | in every continuation, whatever VAT edits it has, a sale's tax is the share at the percentage in force when it was made |
| Results.EditedVatExample | apps/api/src/settings/settings.module.ts:46-60 | an input where it is not the share at the tenant's present percentage |
| Results.RedemptionsAlwaysRight | apps/api/src/pos/sales.service.ts:206-302 | every redemption is its sale's discount, and a limited coupon is within its limit |
| Results.CallbacksAreOnce | apps/api/src/payments/payments.module.ts:149-184 | a callback with a paid token leaves the whole system unchanged, in every continuation |
| Results.KeysAreOnce | apps/api/src/pos/sales.service.ts:189-196 | a used key leaves the whole system unchanged, in every continuation |
| Results.SubscriptionsAreExact | apps/api/src/subscriptions/subscriptions.module.ts:119-141 | n ledger rows mean n prices debited and n + 1 advances from creation; none for externally billed ones |
| Results.StandingOrdersOnce | apps/api/src/payments/payments.module.ts:179-209 | over every run a sale has exactly one externally billed subscription per plan line, with that order's number, if its settling callback named one and it has a customer, and none otherwise |
| Results.JobsChargedOnce | apps/api/src/print/print.module.ts:114-160 | at most one whole charge a print job in every reachable state |
| Results.ShiftsAlwaysRight | apps/api/src/pos/cash.service.ts:22-25 | one open shift a register; a closed shift's variance is counted less expected |
| Results.DrawerIsCounter | apps/api/src/pos/cash.service.ts:76-107 | after every sequence of calls the expected cash equals a counter kept call by call |

## Left out

- Interleavings inside one call: several checks are read outside the transaction that writes, so the invariants are claimed for atomic calls only.
- Web pages, controllers, real-time messages, audit rows, notifications, logging: no state the properties depend on.
- The provider's HTTP client, access tokens, password hashing, role lookup, branch administration, computers beyond their branch, group and removal, reports, reservations: foreign calls or plain create-read-update-delete.
- Numbered invoices, receipts, the provider's own refund call and the seed data.
- Base32.Base32Decode: text is a sequence of Unicode characters, so unpaired surrogates are not covered.
- Csv.CustomerExportDetermines: the sales export differs only in its columns; the importer reads other columns and is no inverse.
- Sales.SalesService.Create: branch and shift ids are not looked up in their tables, and of several bad lines the first one's error is returned.
- Payments.PaymentsService.HandleCallback: the text of the provider's fields is read as a token, a transaction, a standing-order id and a number.
- Printing.NewJobPrice: branch, computer and printer ids are not looked up in their tables.
- Calendar.AdvanceAddsDays: local time zones with daylight saving are not modelled; the setters work in UTC.
- Calendar.MonthlyKeepsDayIff: in UTC, likewise.
- SessionProofs.PausingBarelyChangesThePrice: stated for segments of one price, which `EndedSessionsCostAsOneStretch` derives from the run; when earlier segments sum to zero the code prices all seconds at the last computer, which `Bill` states as it is.
- Printing.PrintService.Cancel: a printed job keeps its charge, as in the code.
- Refunds are bounded one by one, as in the code, not in total.
- Agent registration and other writers of a computer's status are outside the exclusivity result.
