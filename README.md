# Rifaz raffle core in Dafny

Rifaz is a raffle platform. A creator sets up a raffle of numbered tickets (DRAFT), opens it for sale (ACTIVE), buyers reserve numbers and pay for them by PIX, a payment gateway confirms or cancels each charge through a webhook, and background workers expire stale reservations, close raffles whose draw date has passed (PENDING_DRAW) and draw a winner among the paid numbers (FINISHED). This project models that state machine and the following pure computations:
- the reservation checks and fees;
- the public listing and detail statistics;
- the role check and the registration defaults;
- the parts of the two buyer pages that compute something: number selection, totals, the countdown, the sold mark, ticket filtering and counting.

## Layout

| file | module | models |
|---|---|---|
| common.dfy | Common | `Option`, `Result`, an order-keeping `Filter`, subsequences, ids listed newest first |
| decimal.dfy | Decimal | `toString()` of integers, `padStart`, reading digit strings back |
| base64.dfy | Base64 | `Buffer.toString('base64')`, with a decoder and the round trip |
| store.dfy | Store | the database: users, raffles, tickets, transactions; integrity constraints; the `Ledger` class |
| stats.dfy | Stats | `Math.round(sold / total * 100)` and `total - sold` |
| payments.dfy | Payments | `calculateFees`, the PIX code, `POST /payments/reserve`, `POST /payments/webhook` |
| raffles.dfy | Raffles | `requireCreator`, create / activate / update / cancel, the dashboard, my-raffles |
| worker.dfy | Worker | the expiry sweep, the deadline transition, pending-draw scheduling, the draw and its hash |
| api.dfy | Api | `GET /raffles` paging, `GET /raffles/:id`, `authorize`, `POST /auth/register` |
| raffle_detail.dfy | RaffleDetail | the raffle page: number toggle, reserve guard, totals, countdown, `formatTime`, `isSold` |
| my_tickets.dfy | MyTickets | the tickets page: filter, counts, badge, invested total, paid figure, chance, number label |
| overbooking.dfy | Overbooking | what the reservation check lets through: double booking and repeated numbers |

Each table is a sequence, and a record's id is its index. Money is integer cents. Time is an integer number of milliseconds passed in as `now`.

Each route or worker is a pure function `Op(s: Store, …): (Store, Result)`. A method `OpHandler(db: Ledger, …)` beside it performs the same updates on the mutable `Ledger`, with the loops the source has: the reservation's loop creating tickets, the sweep's loop over expired tickets and the pending-draw scheduling loop. Each handler ensures `db.Snapshot() == Op(old(db.Snapshot()), …).0`. The lemmas about `Op` state what the source promises.

Parameters stand in for what the model does not compute:
- the caller of a creator route, as `Option<Caller>`: the user `authorize` would attach (see `Api.Authorize`);
- the clock (`now`);
- the new external id of a reservation (a UUID in the source);
- the draw's random number (`0 <= random < 1`) and its ISO timestamp text;
- the JWT verification, as a function from token to user id.

## Model

| member | source | states |
|---|---|---|
| Common.JsLength | backend/src/routes/raffles.ts:10 | JavaScript's `length`: UTF-16 units, between the character count and twice it, and equal to it when every character is in the Basic Multilingual Plane |
| Common.IdsNewestFirst | backend/src/index.ts:236-252 | the ids selected by `orderBy: createdAt desc`: exactly the ids below `n` satisfying the predicate, strictly decreasing |
| Decimal.NatToString | frontend/src/pages/MyTicketsPage.tsx:346 | `toString()` of a non-negative integer: a non-empty digit string with no leading zero except for 0 |
| Decimal.ValueOfNatToString | frontend/src/pages/MyTicketsPage.tsx:346 | the digits of `toString()` read back as the number |
| Decimal.NatToStringInjective | backend/src/worker.ts:229-233 | different numbers have different `toString()` texts |
| Decimal.PadStart | frontend/src/pages/MyTicketsPage.tsx:346 | `padStart(width, fill)`: the result has length max(len, width), ends with the text and begins with fill characters |
| Decimal.PaddedNatValue | frontend/src/pages/RaffleDetailPage.tsx:340 | zero-padding a number's text keeps it a digit string with the same value |
| Base64.Encode | backend/src/worker.ts:229-233 | base64 text of `n` bytes has length 4·⌈n/3⌉ |
| Base64.DecodeEncode | backend/src/worker.ts:229-233 | decoding the base64 text gives back the bytes |
| Base64.EncodeInjective | backend/src/worker.ts:229-233 | different byte strings have different base64 texts |
| Store.PaidNumbers | backend/src/routes/payments.ts:73-94 | the numbers of a raffle's PAID tickets: one per PAID ticket, and a number is in the list iff some PAID ticket of that raffle bears it |
| Store.SetTicketsOf | backend/src/routes/payments.ts:255-258 | The tickets linked to the transaction take the new status and every other ticket is unchanged. |
| Stats.NearestInteger | backend/src/index.ts:259 | for `d > 0`, the integer within half of the exact fraction `n / d`, halves rounded up |
| Stats.ProgressPercentage | backend/src/index.ts:294-296 | `Math.round(sold / total * 100)`: absent iff `total` is 0, otherwise the nearest integer to 100·sold/total |
| Stats.ProgressNonNegative | backend/src/index.ts:259 | the percentage is never negative, and is 0 when nothing is sold |
| Stats.ProgressAtMostHundred | backend/src/index.ts:259 | the percentage is at most 100 while sold ≤ total, and exactly 100 when all are sold |
| Stats.AvailableCountsFreeNumbers | backend/src/index.ts:296 | when the sold numbers are distinct and within 1..total, `totalNumeros - soldTickets` is the number of numbers in 1..total that are not sold |
| Payments.RoundToCent | backend/src/routes/payments.ts:38-40 | `Math.round(x * 100) / 100` on hundredths of a cent: the nearest cent, halves up |
| Payments.CalculateFees | backend/src/routes/payments.ts:29-42 | service fee within half a cent of 5%, gateway fee within half a cent of 1%, net within half a cent of 94% of the amount |
| Payments.FeesOfThirtyReais | backend/src/routes/payments.ts:29-42 | 30.00 gives fees 1.50 and 0.30 and net 28.20 |
| Payments.FeesSplitAmount | backend/src/routes/payments.ts:33-40 | the two fees and the net add up to the amount give or take one cent |
| Payments.FeesBounded | backend/src/routes/payments.ts:29-42 | for a non-negative amount: 0 ≤ gateway fee ≤ service fee ≤ amount and 0 ≤ net ≤ amount |
| Payments.FeesCanOvershoot | backend/src/routes/payments.ts:35-40 | 1.50 gives 0.08 + 0.02 + 1.41 = 1.51, one cent more than the amount |
| Payments.Fixed2ReadsBack | backend/src/routes/payments.ts:47 | `amount.toFixed(2)` is digits, a point and two digits that read back as the amount in cents |
| Payments.PixCodeLayout | backend/src/routes/payments.ts:45-47 | the PIX code is the fixed prefix, the external id, the fixed middle, the amount text and the fixed suffix, at those positions |
| Payments.UnavailableNumbers | backend/src/routes/payments.ts:94-99 | the requested numbers that are PAID or outside 1..total, in request order |
| Payments.CheckReserve | backend/src/routes/payments.ts:61-117 | the reservation checks in order: 401 without a user, 400 for a bad body, 404 unless the raffle is ACTIVE, the list of unavailable numbers, no capacity; passes iff every number is in range and unsold and the capacity holds |
| Payments.FindByExternalId | backend/src/routes/payments.ts:224-231 | the lookup by the unique external id finds the first transaction with it, or reports that none has it |
| Payments.ReserveRejectedChangesNothing | backend/src/routes/payments.ts:61-117 | a rejected reservation leaves the store as it was |
| Payments.ReserveSucceeds | backend/src/routes/payments.ts:119-188 | on success: one new PENDING transaction priced at unit price × count and carrying those fees and PIX data, one RESERVED ticket per number in order linked to it, expiry now + 15 min, expiresIn 900, earlier records untouched |
| Payments.ReserveKeepsPaidCounts | backend/src/routes/payments.ts:141-154 | a reservation changes no raffle's PAID count |
| Payments.ReservePreservesValid | backend/src/routes/payments.ts:124-175 | a reservation keeps the foreign keys and the external-id uniqueness |
| Payments.ReserveHandler | backend/src/routes/payments.ts:61-188 | the handler's effect and reply are those of `Reserve`, with the tickets built in a loop |
| Payments.ParseGatewayStatus | backend/src/routes/payments.ts:21-26 | the webhook status enum accepts exactly PAID, EXPIRED and CANCELED |
| Payments.WebhookFailsWithoutChange | backend/src/routes/payments.ts:208-243 | a webhook that fails, or that finds the transaction already PAID, changes nothing; an unknown external id fails with 404 |
| Payments.WebhookOnPaidIsNoOp | backend/src/routes/payments.ts:240-243 | on a PAID transaction the webhook succeeds and changes nothing, whatever status it reports |
| Payments.ConfirmPaymentEffect | backend/src/routes/payments.ts:245-280 | PAID makes the transaction and exactly its tickets PAID, and the raffle PENDING_DRAW iff its PAID count reaches its number count; nothing else changes |
| Payments.ReleaseTicketsEffect | backend/src/routes/payments.ts:282-295 | EXPIRED or CANCELED makes the transaction EXPIRED and exactly its tickets CANCELED; nothing else changes |
| Payments.ConfirmPaymentSellsMore | backend/src/routes/payments.ts:255-258 | a confirmation never lowers a raffle's PAID count |
| Payments.ReleaseTicketsSellsLess | backend/src/routes/payments.ts:289-292 | a release never raises a raffle's PAID count |
| Payments.WebhookReplay | backend/src/routes/payments.ts:240-243 | delivering the same webhook twice has the effect of delivering it once |
| Payments.LatePaymentRevivesTickets | backend/src/routes/payments.ts:240-280 | a PAID notification for an EXPIRED transaction still confirms it and turns its CANCELED tickets PAID |
| Payments.WebhookPreservesValid | backend/src/routes/payments.ts:245-295 | settlement keeps the integrity constraints |
| Payments.WebhookHandler | backend/src/routes/payments.ts:208-298 | the handler's effect and reply are those of `Webhook` |
| Raffles.CreateSpec | backend/src/routes/raffles.ts:77-122 | create succeeds iff the caller is a CREATOR, the body passes the schema and the draw date is in (now, now + 90 days]; it appends one DRAFT raffle owned by the caller with the given fields, and changes nothing on failure |
| Raffles.CreatePreservesValid | backend/src/routes/raffles.ts:108-121 | a stored raffle respects the integrity constraints |
| Raffles.CreateHandler | backend/src/routes/raffles.ts:77-143 | the handler's effect and reply are those of `Create` |
| Raffles.EveryFieldRequired | backend/src/routes/raffles.ts:41-48 | each of the six raffle fields is on the required list |
| Raffles.MissingFields | backend/src/routes/raffles.ts:50 | the falsy required fields, in list order |
| Raffles.CanActivate | backend/src/routes/raffles.ts:34-71 | activation is allowed iff no field is falsy and the date is in (now, now + 90 days]; missing fields are reported first, then a past date, then a date too far off |
| Raffles.PromoteToCreator | backend/src/routes/raffles.ts:190-197 | the promotion appends CREATOR to the caller's roles and touches no other user |
| Raffles.PromotionAddsCreatorOnce | backend/src/routes/raffles.ts:190-197 | the old roles are kept as a prefix and CREATOR appears once |
| Raffles.ActivateSpec | backend/src/routes/raffles.ts:148-203 | activate succeeds iff the caller is a CREATOR owning the DRAFT raffle and it can be activated; it only sets that raffle ACTIVE |
| Raffles.ActivateHandler | backend/src/routes/raffles.ts:148-211 | the handler's effect and reply are those of `Activate` |
| Raffles.EmojiTitleLength | backend/src/routes/raffles.ts:10 | a title of two emoji is four UTF-16 units long and passes `min(3)`; one emoji does not |
| Raffles.UpdateSpec | backend/src/routes/raffles.ts:216-258 | update succeeds iff the caller is a CREATOR owning the DRAFT raffle and the patch passes the schema; patched fields are overwritten, the rest kept, the status stays DRAFT |
| Raffles.UpdatePreservesValid | backend/src/routes/raffles.ts:243-258 | a patch that passes the schema keeps the integrity constraints |
| Raffles.UpdateHandler | backend/src/routes/raffles.ts:216-279 | the handler's effect and reply are those of `Update` |
| Raffles.CancelSpec | backend/src/routes/raffles.ts:420-451 | cancel succeeds iff the caller is a CREATOR owning the raffle in DRAFT or ACTIVE; it sets only its status and touches no ticket and no transaction |
| Raffles.CancelHandler | backend/src/routes/raffles.ts:420-459 | the handler's effect and reply are those of `Cancel` |
| Raffles.RaffleRoutesRespectLifecycle | backend/src/routes/raffles.ts:148-451 | activate, update and cancel change at most the named raffle, only when owned, only from their source statuses, and never a PENDING_DRAW, FINISHED or CANCELED raffle |
| Raffles.CreatorRaffleIds | backend/src/routes/raffles.ts:329-341 | the creator's raffles: exactly those with that creator, newest first |
| Raffles.Dashboard | backend/src/routes/raffles.ts:284-371 | 403 unless CREATOR; the metrics are taken over the PAID transactions the creator bought; line i is the creator's i-th raffle, newest first, with its record, its PAID count, its progress and the net revenue of its PAID transactions |
| Raffles.MyRaffles | backend/src/routes/raffles.ts:384-407 | 403 unless CREATOR; exactly the creator's raffles, newest first, each with PAID count and progress |
| Raffles.DashboardCountsPurchasesNotSales | backend/src/routes/raffles.ts:308-328 | a creator whose raffle sold 30.00 to another user sees revenue 0, while the raffle line shows 28.20 |
| Raffles.NetProfitDeductsFeesTwice | backend/src/routes/raffles.ts:345-348 | one 30.00 sale nets 28.20 but reports a profit of 26.40 |
| Raffles.CorrectedDashboard | backend/src/routes/raffles.ts:284-371 | the dashboard with the corrected metrics and the same raffle lines |
| Raffles.CorrectedRevenueCountsSales | backend/src/routes/raffles.ts:308-314 | one more transaction adds its net value to the corrected revenue iff it is a PAID sale in one of the creator's raffles |
| Raffles.GrossMinusFeesNearNet | backend/src/routes/raffles.ts:345-348 | over transactions priced by the fee rule, gross minus fees is within one cent per transaction of the net total |
| Raffles.CorrectedProfitMatchesRevenue | backend/src/routes/raffles.ts:345-348 | the corrected profit matches the corrected revenue to within one cent per sale |
| Worker.ExpiredTicketIds | backend/src/worker.ts:31-41 | exactly the RESERVED tickets created more than 15 minutes before `now`, each once |
| Worker.SweepSpec | backend/src/worker.ts:29-66 | nothing is written iff no reservation expired; otherwise the count is the number selected, each selected ticket becomes CANCELED, its transaction EXPIRED, and nothing else changes |
| Worker.SweepIdempotent | backend/src/worker.ts:31-53 | a second sweep at the same `now` finds nothing |
| Worker.SweepKeepsPaidCounts | backend/src/worker.ts:48-62 | the sweep changes no raffle's PAID count |
| Worker.SweepPreservesValid | backend/src/worker.ts:48-62 | the sweep keeps the integrity constraints |
| Worker.SweepStep | backend/src/worker.ts:49-61 | one loop step cancels one ticket and expires its transaction |
| Worker.SweepByLoop | backend/src/worker.ts:48-62 | the loop over the selected tickets produces the sweep's tables |
| Worker.SweepHandler | backend/src/worker.ts:29-66 | the worker's effect and report are those of `Sweep` |
| Worker.TransitionSpec | backend/src/worker.ts:83-106 | exactly the ACTIVE raffles past their draw date become PENDING_DRAW, and the count is their number |
| Worker.TransitionAgainIsZero | backend/src/worker.ts:83-106 | an immediate second run transitions nothing |
| Worker.TransitionPreservesValid | backend/src/worker.ts:97-106 | the transition keeps the integrity constraints |
| Worker.TransitionHandler | backend/src/worker.ts:78-110 | the worker's effect and count are those of `Transition` |
| Worker.ProcessPendingDraws | backend/src/worker.ts:187-208 | one draw job per PENDING_DRAW raffle and no other, each raffle once, each with the 1-second delay |
| Worker.WinningIndex | backend/src/worker.ts:221-226 | `Math.floor(random * length)` is a valid index |
| Worker.WinningNumber | backend/src/worker.ts:221-226 | there is a winner iff there are numbers, and it is one of them |
| Worker.EveryNumberCanWin | backend/src/worker.ts:221-226 | every position is picked by some random value |
| Worker.AsciiBytes | backend/src/worker.ts:229-233 | the payload's bytes are its character codes |
| Worker.AsciiBytesInjective | backend/src/worker.ts:229-233 | different payloads have different bytes |
| Worker.DrawingHashInjective | backend/src/worker.ts:229-233 | the drawing hash determines the raffle id, the winning number and the timestamp |
| Worker.DrawSpec | backend/src/worker.ts:122-174 | the draw succeeds iff the raffle is PENDING_DRAW and has a PAID ticket; the winner is the number of a PAID ticket; only that raffle changes, to FINISHED with the number and its hash; a failure changes nothing |
| Worker.DrawOnce | backend/src/worker.ts:126-145 | a drawn raffle cannot be drawn again |
| Worker.DrawPreservesValid | backend/src/worker.ts:152-159 | the draw keeps the integrity constraints |
| Worker.DrawHandler | backend/src/worker.ts:122-174 | the worker's effect and result are those of `Draw` |
| Api.TrimStart | backend/src/index.ts:231-232 | `parseInt` skips the leading ECMAScript white space and line terminators (tab, vertical tab, form feed, BOM, every space separator, LF, CR, U+2028, U+2029) and nothing more |
| Api.DigitPrefix | backend/src/index.ts:231-232 | the longest run of digits at the start |
| Api.ParseInt | backend/src/index.ts:231-232 | `parseInt` gives NaN iff no digit follows the white space and optional sign |
| Api.ParseIntReadsBack | backend/src/index.ts:231-232 | `parseInt` of an integer's text, followed by a non-digit, gives the integer |
| Api.FormFeedSkipped | backend/src/index.ts:231-232 | `parseInt("\f2")` is 2: a form feed before the digits is skipped |
| Api.QueryNumber | backend/src/index.ts:231-232 | `parseInt(q) \|\| fallback`: the parsed value unless the query is absent, unparsable or zero, otherwise the fallback |
| Api.StatusFilter | backend/src/index.ts:233-235 | no filter iff the query is absent or empty; otherwise the status with that name, or an error when none has it |
| Api.CeilDiv | backend/src/index.ts:266 | `Math.ceil(total / limit)`: the least page count covering the total |
| Api.Matching | backend/src/index.ts:233-253 | exactly the raffles in the filtered status (or all of them), newest first |
| Api.Window | backend/src/index.ts:250-251 | `skip`/`take`: the elements from `skip` on, at most `take` of them |
| Api.Item | backend/src/index.ts:257-260 | a list entry: the raffle, its PAID count and the rounded progress |
| Api.ListRaffles | backend/src/index.ts:230-268 | the list fails iff the status is unknown or the page or limit is below 1; otherwise it is that page |
| Api.PageSpec | backend/src/index.ts:236-266 | the page holds the matching raffles from position (page − 1)·limit, at most `limit`, newest first; the pagination reports page, limit, total and ⌈total/limit⌉ |
| Api.EveryRaffleOnItsPage | backend/src/index.ts:250-266 | the raffle at position p appears on page p div limit + 1, at slot p mod limit, and that page exists |
| Api.PageOfPosition | backend/src/index.ts:266 | a position below the total falls on a page no later than the last |
| Api.UnfilteredTotal | backend/src/index.ts:253 | without a filter the total counts every raffle |
| Api.AllIdsNewestFirst | backend/src/index.ts:236-252 | when every id qualifies, all of them are listed |
| Api.GetRaffle | backend/src/index.ts:271-298 | 404 iff the id is unknown; otherwise the sold numbers are exactly the PAID ticket numbers, sold = PAID count, available + sold = total, and the progress is the rounded percentage |
| Api.AvailableAreUnsold | backend/src/index.ts:292-296 | when no number is paid twice and the paid numbers are on the grid, `availableNumbers` is the count of numbers in 1..total absent from `soldNumbers` |
| Api.ListAndDetailAgree | backend/src/index.ts:257-296 | a list entry and the detail of the same raffle report the same PAID count and progress |
| Api.IndexOf | backend/src/index.ts:38 | the first occurrence of a pattern, or none |
| Api.BearerHeaderYieldsToken | backend/src/index.ts:38 | `replace('Bearer ', '')` on a bearer header gives the token |
| Api.AnyRoleIn | backend/src/index.ts:61-67 | `roles.some(role => user.roles.includes(role))` iff some allowed role is held |
| Api.AuthorizeSpec | backend/src/index.ts:36-77 | 401 without a header; success iff the token is non-empty, verifies to a stored user and that user holds an allowed role; the caller then carries the stored roles |
| Api.AuthorizeBearer | backend/src/index.ts:36-77 | a valid bearer token of a user with an allowed role is accepted as that user |
| Api.RegisterSpec | backend/src/index.ts:100-146 | the schema error iff the body fails the schema, the 400 "e-mail taken" error iff the e-mail is taken, otherwise one new user with roles exactly [BUYER]; no change on failure |
| Api.EmojiNameLength | backend/src/index.ts:27 | the name "😀" is two UTF-16 units long and passes `min(2)` |
| Api.RegisterKeepsEmailsUnique | backend/src/index.ts:105-126 | registering keeps the e-mails distinct |
| Api.RegisterPreservesValid | backend/src/index.ts:120-126 | registering keeps the integrity constraints |
| Api.RegisterHandler | backend/src/index.ts:100-146 | the handler's effect and reply are those of `Register` |
| RaffleDetail.Toggle | frontend/src/pages/RaffleDetailPage.tsx:58-69 | no change unless ACTIVE; a selected number is removed; an unselected one is appended while fewer than 10 are selected; otherwise no change |
| RaffleDetail.ToggleKeepsSelectionOk | frontend/src/pages/RaffleDetailPage.tsx:61-68 | the selection stays duplicate-free and at most 10 long |
| RaffleDetail.ToggleRoundTrip | frontend/src/pages/RaffleDetailPage.tsx:62-65 | toggling an unselected number twice, with room, restores the selection |
| RaffleDetail.ToggleStaysOnGrid | frontend/src/pages/RaffleDetailPage.tsx:234-241 | choosing from the grid 1..total keeps every selected number in 1..total |
| RaffleDetail.NumberPicker.constructor | frontend/src/pages/RaffleDetailPage.tsx:19 | the selection starts empty |
| RaffleDetail.NumberPicker.Select | frontend/src/pages/RaffleDetailPage.tsx:58-69 | the selection becomes `Toggle` of the old one and stays duplicate-free and at most 10 long |
| RaffleDetail.HandleReserve | frontend/src/pages/RaffleDetailPage.tsx:71-86 | to login when unauthenticated, an alert when nothing is selected, otherwise a request with the raffle id and the selection |
| RaffleDetail.SentRequestPassesSchema | frontend/src/pages/RaffleDetailPage.tsx:71-86 | a request sent from a valid selection on the grid passes the server's reservation schema |
| RaffleDetail.Summary | frontend/src/pages/RaffleDetailPage.tsx:122-125 | total = unit price × count; the final amount adds 5% and 1% of the total |
| RaffleDetail.ModalTotalExceedsCharge | frontend/src/pages/RaffleDetailPage.tsx:122-125 | the page's total equals the PIX charge, but the final amount shown is 106% of it |
| RaffleDetail.PaymentCountdown.constructor | frontend/src/pages/RaffleDetailPage.tsx:327 | the payment countdown starts at 15 minutes |
| RaffleDetail.PaymentCountdown.Tick | frontend/src/pages/RaffleDetailPage.tsx:329-335 | each second the countdown goes down by one until it reaches 0 |
| RaffleDetail.AfterTicksValue | frontend/src/pages/RaffleDetailPage.tsx:329-335 | after k ticks the countdown shows max(t − k, 0) |
| RaffleDetail.CountdownMatchesReservation | frontend/src/pages/RaffleDetailPage.tsx:327-335 | the countdown reaches 0 exactly after the reservation's 900 seconds |
| RaffleDetail.Pad2ReadsBack | frontend/src/pages/RaffleDetailPage.tsx:340 | a two-digit padded number reads back as itself, two characters below 100 |
| RaffleDetail.FormatTimeReadsBack | frontend/src/pages/RaffleDetailPage.tsx:337-341 | `mm:ss` reads back as 60 · minutes + seconds = the input, five characters below 100 minutes |
| RaffleDetail.IsSold | frontend/src/pages/RaffleDetailPage.tsx:239-240 | as written: number n is marked sold iff soldTickets > 0 and n ≤ soldTickets |
| RaffleDetail.SoldMarkIsPositional | frontend/src/pages/RaffleDetailPage.tsx:239-240 | with only number 5 paid, number 1 is marked sold and number 5 is offered, which the reservation then refuses |
| RaffleDetail.SoldMarkMatchesReserve | frontend/src/pages/RaffleDetailPage.tsx:239-240 | the corrected mark holds iff the reservation refuses that number as unavailable |
| MyTickets.FilteredTickets | frontend/src/pages/MyTicketsPage.tsx:64-68 | nothing before loading; all tickets for ALL; otherwise exactly the tickets with that status |
| MyTickets.FilteredKeepsOrder | frontend/src/pages/MyTicketsPage.tsx:64-68 | the filtered list keeps the loaded order |
| MyTickets.CountsMatchFilters | frontend/src/pages/MyTicketsPage.tsx:70-79 | all zero before loading; each count is the length of its filter's list; PAID + RESERVED + EXPIRED ≤ ALL |
| MyTickets.StatusBadge | frontend/src/pages/MyTicketsPage.tsx:37-53 | Pago, Reservado and Expirado for their statuses, Cancelado for any other text |
| MyTickets.CanceledUsesFallback | frontend/src/pages/MyTicketsPage.tsx:48-53 | the API's CANCELED is not a key of the badge table and gets the fallback badge |
| MyTickets.InvestedDependsOnPaidOnly | frontend/src/pages/MyTicketsPage.tsx:398-402 | the invested total is the same under ALL and PAID, and 0 under RESERVED and EXPIRED |
| MyTickets.InvestedAtMostShown | frontend/src/pages/MyTicketsPage.tsx:398-402 | with non-negative values, 0 ≤ invested ≤ the value of all shown tickets |
| MyTickets.PaidShownMatchesCount | frontend/src/pages/MyTicketsPage.tsx:406-409 | the paid figure equals the PAID count under ALL and PAID, and is 0 otherwise |
| MyTickets.ChanceOverThousand | frontend/src/pages/MyTicketsPage.tsx:412-417 | the chance text reads back as count / 1000 as a percentage, whatever the raffle size |
| MyTickets.NumberLabelReadsBack | frontend/src/pages/MyTicketsPage.tsx:346 | the ticket label has at least four digits, exactly four below 10000, and reads back as the number |
| Overbooking.ReserveKeepsPaidTickets | backend/src/routes/payments.ts:141-154 | a reservation leaves every raffle's PAID tickets as they were |
| Overbooking.PendingReservationBlocksNothing | backend/src/routes/payments.ts:73-94 | a pending reservation does not change the outcome of any later reservation check |
| Overbooking.DoubleBooking | backend/src/routes/payments.ts:73-117 | after one buyer reserves numbers, a second buyer's reservation of the same numbers also succeeds |
| Overbooking.SameNumberSoldTwice | backend/src/routes/payments.ts:245-280 | confirming both reservations leaves two PAID tickets of one raffle bearing the same number |
| Overbooking.RepeatedNumberReservedTwice | backend/src/routes/payments.ts:16-19 | a request naming a number twice passes the schema and, if accepted, stores two RESERVED tickets with that number |

## Left out

- Prisma and the database: the tables are sequences. Each `$transaction` block is one atomic step. Isolation, concurrency and races between requests are not modelled.
- Elysia routing, `Response` objects, status codes and JSON bodies: these become result datatypes. The status code of each error is given in a comment.
- JWT signing and verification, bcrypt hashing and comparison, and `POST /auth/login`: these are foreign library calls. Verification is a function parameter of `Api.Authorize`. `/auth/me` and `/health` only return data.
- `authorize` is attached in the source only to `/auth/me`, so the creator and payment routes read `ctx.user`, which the model passes in as a parameter.
- Bull/Redis queues, the `setInterval` schedules and the e-mail workers and senders: infrastructure only. `Worker.ProcessPendingDraws` returns the jobs it would enqueue.
- `Math.random`: a parameter in [0, 1). `new Date()`: a millisecond parameter `now`. The draw's ISO timestamp: an ASCII text parameter, without calendar conversion.
- The seed argument of `generateAuditableWinningNumber` is unused in the source, so it has no counterpart.
- Record ids are cuid strings in the source and indices here. The raffle id in the drawing payload is therefore written as a decimal number.
- `GET /payments/my-tickets` and `GET /payments/transaction/:id`: read-only groupings outside the modelled core.
- MyTickets.ClientTicket: the tickets page is modelled on the flat ticket list its declared type `TicketWithRaffle` describes (frontend/src/types/index.ts:81-100), with `value` in cents. `GET /payments/my-tickets` actually sends one `{raffle, tickets}` group per raffle, with no top-level `status` or `number` and no `value` at all (backend/src/routes/payments.ts:345-362). On that reply the page would count raffles under ALL, show 0 for every status and an invested total of NaN, and throw on `ticket.number.toString()`. The model does not capture this mismatch.
- Payments.ValidNumbers: numbers are integers here. The source schema `z.number().min(1)` also accepts a fraction such as 1.5. Such a number passes the availability filter, and the ticket insert then fails on the integer column with a 500. That path is not modelled.
- Payments.WebhookRequest: carries only the external id and the status. The source schema also requires `amount` and `timestamp`, and a body without them is refused with 400 (backend/src/routes/payments.ts:21-26, 222). That refusal is not modelled.
- `Api.ParseInt`: does not model `parseInt`'s hexadecimal `0x` prefix rule.
- `Api.ListRaffles`: a page or limit below 1 is an error here. Prisma would reject a negative skip and read a negative take as "take from the end"; that behaviour is not modelled.
- Stats.NearestInteger, Stats.ProgressPercentage: the model rounds the exact value 100·sold/total with halves going up. The source rounds the floating-point product `(sold / total) * 100` (backend/src/index.ts:259, 295; backend/src/routes/raffles.ts:363, 404), which at an exact half often lies just below it. For 23 sold of 40 the source computes 57.49999999999999 and shows 57, where the model gives 58. The same difference reaches `Api.Item`, `Api.GetRaffle`, `Raffles.Dashboard` and `Raffles.MyRaffles`.
- Payments.RoundToCent, Payments.CalculateFees: the model rounds the exact fee in hundredths of a cent with halves going up. The source rounds the floating-point `fee * 100` (backend/src/routes/payments.ts:33-40), which at an exact half can lie just below it. For 5 numbers at 1.14 the amount is 5.699999999999999 and `serviceFee * 100` is 28.499999999999996, so the source stores 0.28 where the model gives 0.29.
- Floating point: money is exact integer cents. The page totals (`RaffleDetail.Summary`) are exact reals. The chance text assumes `n / 1000 * 100` rounds to `n / 10` under `toFixed(2)`.
- `Intl.NumberFormat` currency text and date formatting on the pages: presentation only.
- The in-place sort of the selected numbers during rendering (frontend/src/pages/RaffleDetailPage.tsx:266) is not modelled.
- The page-level `timeLeft` on the raffle page starts at 0, so its timer never runs (frontend/src/pages/RaffleDetailPage.tsx:21, 50-56). Only the payment modal's countdown is modelled.
- Schema checks on e-mail format and URL format are not modelled. Only the length and range checks are, with lengths in UTF-16 units as zod counts them (`Common.JsLength`).
- Raffles.CreateSpec: prices are whole cents, counts are integers and the draw date is a millisecond number. So the model does not express a fractional `totalNumeros` such as 1.5, which `z.number().min(1).max(10000)` accepts and the route passes to the insert (backend/src/routes/raffles.ts:13, 108-118). It also does not express a price with a fraction of a cent, or the 400 that `z.string().datetime()` gives for a draw date that is not ISO text (backend/src/routes/raffles.ts:14, 123-133).
- Raffles.UpdateSpec: the patch has the same gaps as Raffles.CreateSpec, namely fractional counts and prices and the date-format refusal (backend/src/routes/raffles.ts:18).
- Api.RegisterSpec: the e-mail format refusal of `z.string().email()` is not modelled (backend/src/index.ts:26). The length checks count UTF-16 units as the source does.
- The type files and the UI-only pages (dashboard, home, login, register, create-raffle page, navbar, app shell, API client, auth store) hold no logic, so they are not modelled.

Behaviour modelled as written, with the lemma that shows it:
- The reservation check counts only PAID tickets, so pending reservations block nobody. See `Overbooking.DoubleBooking` and `Overbooking.SameNumberSoldTwice`.
- A request may repeat a number: `Overbooking.RepeatedNumberReservedTwice`.
- Only PAID short-circuits the webhook, so an EXPIRED transaction can still be paid: `Payments.LatePaymentRevivesTickets`.
- A PAID webhook sets the raffle PENDING_DRAW whatever the raffle's status.
- The sweep keys on the ticket's `createdAt` and ignores the transaction's status: `Worker.SweepSpec`.
- Cancel does not cascade to tickets or transactions: `Raffles.CancelSpec`.
- Activation's CREATOR promotion cannot run, because `requireCreator` already demands the role. `Raffles.PromoteToCreator` models the promotion on its own.
- Update runs no date check on a patched draw date: `Raffles.UpdateSpec`.
- `netValue` is rounded on its own, so the two fees and the net can exceed the amount by a cent: `Payments.FeesCanOvershoot`.

## Findings

| source | as written | input that shows it | evidently intended | confidence | as-written member | corrected member |
|---|---|---|---|---|---|---|
| backend/src/routes/raffles.ts:308-328 | the dashboard's revenue and fee totals sum the PAID transactions whose buyer is the creator | a creator whose raffle sold one number for 30.00 to another user sees total revenue 0 | sum the PAID transactions of the creator's raffles | high, not executed | Raffles.DashboardCountsPurchasesNotSales | Raffles.CorrectedRevenueCountsSales |
| backend/src/routes/raffles.ts:345-348 | `netProfit` subtracts both fees from the sum of `netValue`, which already excludes them | one 30.00 sale: net 28.20, profit reported 26.40 | gross amount minus fees, which matches the net revenue | high, not executed | Raffles.NetProfitDeductsFeesTwice | Raffles.CorrectedProfitMatchesRevenue |
| frontend/src/pages/RaffleDetailPage.tsx:239-240 | the grid marks the first `soldTickets` numbers as sold | only number 5 paid: number 1 greyed out, number 5 offered and then refused | mark the numbers of the PAID tickets, which the detail route already returns as the `number` of each entry in its `tickets` list | medium (the line is commented as a simplification), not executed | RaffleDetail.SoldMarkIsPositional | RaffleDetail.SoldMarkMatchesReserve |
