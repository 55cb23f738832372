# Proofs about the shop backend

A model, in Dafny 4.11, of the parts of the backend that must not go wrong: an
order that was charged is delivered, money is neither lost nor invented, what
was sold cannot be deleted, and what is on sale can be delivered. The model is
the code restated (same branches, same constants, same order of database
calls); the theorems are about all its inputs, all its runs or all its
reachable states.

Check everything with `dafny verify dfyconfig.toml`.

## How it is organised

**The paid-order protocol.** One database and any number of concurrent actors.

- `Store.dfy`: the tables and every database call or transaction the services
  make, as functions from tables to tables; `None` is a transaction that rolled
  back. The conditional updates, the unique keys, the cascade, the restricting
  foreign key and the delete trigger are in these functions.
- `Protocol.dfy`: the actors (passes over the queue, webhook and reconciliation
  requests, admin retries, deletions, resends, downloads) as processes that make
  one call per step. `Run` folds any list of steps, so a theorem about
  `Run(INIT, steps)` is about every interleaving, and the `Crash` steps stop any
  actor for good between two calls. Mail, Stripe, random numbers, fresh ids and
  the clock are parameters of the steps.
- `Invariant.dfy`: what every step keeps; `OrderProof`, `QueueProof`,
  `GrantProof`, `ShopSteps`, `QueueSteps`, `WorkerSteps`: that each step keeps it.
- `ProtocolTheorems.dfy`: the guarantees.
- `PaymentRaces.dfy`: two payments of one order that read before either commits.
  `RefundDownloads.dfy`: downloads in flight when the order is refunded.
  `Frames.dfy`: what each step leaves alone, for both.
- `RefundFinal.dfy`: a refund with nothing of its order under way stands, whatever
  runs. `RefundUndone.dfy`: anything that is under way can be run to undo it.
- `MailTrail.dfy`: the mails of a run, and that no order and no job says it was
  dealt with before its mail went out. `LinkLife.dfy`: how long a link serves.
- `Maintenance.dfy`: purges, refunds, resends, retries and alerts, row by row and
  in figures.
- `StatusFrames.dfy`: which steps put an order in PAID or NEEDS_REVIEW.
  `MonitorReads.dfy`: the alerts endpoint with its four counts apart.
- `DeletionOverlap.dfy`: the deletion of a product with its two statements apart.
- `GrantOverlap.dfy`: the transaction that issues links, with its two halves apart.
- `PaymentOnce.dfy`: the two roads to a paid order, with whole handlers as steps.
- `Passes.dfy`: uninterrupted passes of the queue. `Reconciliation.dfy`: the sweep
  over the pending orders.
- `Services.dfy`: the services as a class whose methods change the tables in
  place, each proved against the functions above.
- `PassRuns.dfy`: the uninterrupted pass is one of the runs of the protocol, so
  the guarantees over interleavings hold of that code; the run is made of steps
  of that one pass. `RequestRuns.dfy`: so is every other handler, call by call:
  webhooks, sweep, retry, deletions, resend and download.
- `Backoff.dfy`: the retry waits.

**The pieces around it.** `Checkout.dfy` (cart, prices, agreement with payment
and delivery), `Catalog.dfy`, `CatalogEdits.dfy` and `ProductDesk.dfy` (what the panel may do
to a product), `CatalogOverlap.dfy` (what two requests of the panel may do to each
other), `Auth.dfy` (refresh-token lineage), `AuthOverlap.dfy` (the same with
login, refresh and password change split into their database calls), `CircuitBreaker.dfy` and
`CircuitOverlap.dfy` (calls one at a time, and calls that overlap),
`DailySeries.dfy`, `HtmlEscape.dfy`, `Latency.dfy`. `Prelude.dfy` holds two
datatypes and what several modules say about lists, sets and unused ids.

## Where the code and its comments or promises part

The model follows the code. Each point below is proved.

- `src/modules/orders/orders.service.ts:248`: the date loop fails for a range
  that ends on 9999-12-31, because the ISO text of later years starts with `+`
  and sorts before every digit (`DailySeries.Fill` gives the exact condition).
- `src/modules/payments/payments.service.ts:65-177`: the handler looks at the
  status before its transaction and not in it. A payment that read the order as
  pending and commits after another one writes PAID again, with its own date and
  intent, even over a refund (`PaymentRaces.RefundCanBeUndone` is such a run).
  `PaymentRaces.RewriteExactly` says when that happens and all it changes;
  `PaymentRaces.ChargeIsFrozen` that none can come once no payment that read the
  order is waiting, and `PaymentRaces.ChargeIsFinalExactly` that this condition
  is exact.
- `src/modules/orders/downloads.controller.ts:57-79`: the conditional increment
  does not look at the revocation, so a refund does not stop a download that had
  read its grant before (`RefundDownloads.InFlightIsServed`); it stops every
  other one (`RefundDownloads.RefundStopsDownloads`).
- `src/modules/outbox/outbox.service.ts:218-271`: deliveries, escalations, retries
  and resends write status and links without looking at the status they
  overwrite, so a refund is not the end of an order by itself: a queued job can
  still deliver it or send it to review. It stands, over every continuation,
  exactly when no payment, retry or resend of the order is waiting, no pass holds
  a job of it or is about to escalate it, and none is in the queue
  (`RefundUndone.RefundStandsExactly`).
- `src/modules/catalog/dto/product.dto.ts`: variants cost at most 10,000,000
  cents, but a digital product may be created at 100,000,000, and a cart holds up
  to 200 units. Every valid cart fits a signed 32-bit column exactly up to a limit
  of 10,737,418 cents (`Checkout.LimitExact`): the variant form's limit is safe
  (`Checkout.SubtotalFits`), the product form's is not
  (`Checkout.DigitalPricesOverflow`).
- `src/modules/catalog/catalog.service.ts:159-179`: publishing checks and writes
  in two calls. What comes between them does harm exactly when it undoes the
  check (`CatalogOverlap.PublishOvertaken`, and for any number of edits
  `CatalogOverlap.PublishOvertakenByMany`). Under read committed, any number of
  transactions that each pass their own check leave a product on sale
  undeliverable exactly when they take away all its active variants or all its
  images between them (`CatalogOverlap.OverlapOfMany`, for two of them
  `CatalogOverlap.OverlapExactly`). An unfinished variant added to a product on
  sale, and a change of its kind, are not checked at all (`Catalog.EditKeeps`
  gives the exact condition).
- `src/modules/catalog/digital-asset.service.ts:68-90`: the removal of a file
  reads the product in one call and writes in another; it takes the file of a
  product put on sale in between exactly under the condition of
  `CatalogOverlap.LateAssetRemoval`.
- `src/modules/catalog/product-images.service.ts:46-86`: an upload counts the
  images in one call and writes in another. The limit of ten, the positions and
  the primary mark survive what came between exactly under the conditions of
  `CatalogOverlap.UploadOvertaken`.
- `src/modules/orders/digital-delivery.service.ts:71-98`: the comment says a retry
  must not leave two live links of one line. Under read committed the line keeps
  one over every run in which no emission begins on a line another is serving
  (`GrantOverlap.OneLinkUnlessCollision`), and each such beginning can end with
  two (`GrantOverlap.CollisionDoubles`).
- `src/common/resilience/circuit-breaker.ts:62-64`: the comment says a single call
  goes through to try. Every call that arrives before the first of them ends goes
  with it (`CircuitOverlap.TrialIsNotAlone`); which calls are refused is still
  told by the failures alone (`CircuitOverlap.RefusedExactly`).
- `src/modules/outbox/outbox.controller.ts:61-92`: the four counts are four
  queries, and a healthy answer can miss an order that was owing all along:
  `MonitorReads.MonitorCanMiss` is such a run, and
  `MonitorReads.LastFailureIsMissed` builds one from any reachable state with
  nothing to report but a stuck order whose job is about to fail for the last
  time. It misses one only if, between the review count and the count of stuck
  orders, the order was escalated, or between the count of stuck orders and the
  review count a retry moved it back (`MonitorReads.MissedOnlyBetween`). With
  three counts taken and the fourth about to be, the next step makes it so
  exactly if it is that escalation or that retry (`MonitorReads.MissedExactly`,
  `MonitorReads.MissedByRetryExactly`).
- `src/modules/catalog/catalog.service.ts:226-243`: under read committed a checkout
  may come in between the two statements of the deletion. It rolls the deletion
  back though nobody has paid (`DeletionOverlap.CheckoutRollsBack`); besides
  another deletion of the product, nothing else that comes between does
  (`DeletionOverlap.SplitDeletionExactly`).
- `src/modules/catalog/product-images.service.ts:131-138`: the reorder accepts a
  list that repeats an id; each image ends where it was put exactly when none is
  repeated (`Catalog.ReorderExact`). An edit may take the primary mark off the
  only image that has it (`Catalog.PrimaryKept`), and a deletion leaves a gap in
  the positions (`Catalog.DeletionStaysDense`).
- `src/common/utils/text-sanitize.util.ts:17-22`: the comment gives "first
  `&lt;`, then `&amp;`" as the order that goes wrong. That order is equivalent to
  the single pass (`HtmlEscape.AmpersandLastIsOnePass`); the other one goes wrong
  (`HtmlEscape.AmpersandFirstIsNot`). The comment on the loop (lines 45-49) says
  two or three turns are enough for fifty characters. Each turn takes one wrapping
  off (`HtmlEscape.OnePassOneLayer`), so for a text without tags five turns are
  enough exactly up to five wrappings (`HtmlEscape.StableIffShallow`), and
  twenty-four characters can hold six (`HtmlEscape.CapStopsShort`).
- `src/modules/auth/auth.service.ts:92-131`: the rotation reads, revokes and
  stores in three calls. A chain of tokens stays with one live token over every
  run in which no refresh is let in on a token another refresh already holds
  (`AuthOverlap.OneLiveTokenUnlessCollision`), and each such collision can be
  finished into two (`AuthOverlap.CollisionBranches`); two rotations keep the
  chains exactly when their tokens differ (`AuthOverlap.TwoRotations`).
- `src/modules/auth/auth.service.ts:173-213`: a login or a refresh that was let in
  before a password change and stores its token after it outlives the change. The
  change closes every session for good exactly when nothing of that user was in
  flight (`AuthOverlap.ChangeClosesExactly`). The password it was let in with is
  compared before the transaction and not in it: the change takes effect anyway,
  and replaces that password exactly when no other change came between or the
  last one had put it back (`AuthOverlap.ChangeOvertaken`,
  `AuthOverlap.TwoChanges`). For requests that do not overlap
  both properties hold over every run (`Auth.OneLiveTokenPerChain`,
  `Auth.ClosedForGood`).
- `src/modules/payments/payments.service.ts:257-260`: cancelling an expired
  session checks one of the three signals of a charge; in every reachable state
  it does the same as checking all three (`ProtocolTheorems.OneSignalIsEnough`).
- `src/modules/outbox/outbox.service.ts:420-433`: the comment describes a wait
  between zero and the ceiling; the code waits at least a quarter of it
  (`Backoff.BackoffMs`).

## Model

| member | source | states |
|---|---|---|
| ProtocolTheorems.StepKeeps | src/modules/outbox/outbox.service.ts:99-409 | Every step of every actor, from any state that satisfies the invariant, keeps it, and orders, lines, charges, submissions, grants and revocations only move forward |
| ProtocolTheorems.MutualExclusion | src/modules/outbox/outbox.service.ts:99-156 | In every reachable state a job held by a pass is PROCESSING and no two passes hold the same job, although read and claim are separate calls, claims may be partial and passes may crash |
| ProtocolTheorems.PaidOrderIsNotLost | src/modules/payments/payments.service.ts:102-174 | In every reachable state a charged order has been submitted for fulfilment or one job of the kind its lines ask for is still PENDING, PROCESSING or FAILED |
| ProtocolTheorems.SignalsAgree | src/common/constants/order.constants.ts:27-31 | In every reachable state paidAt is set iff the PaymentIntent is, PENDING_PAYMENT and CANCELLED exclude both, and the never-charged predicate says exactly "no charge and not refunded" |
| ProtocolTheorems.ChargeIsPermanent | src/modules/payments/order-reconciliation.service.ts:142-158 | Whatever runs after the charge, the order is still there, charged, with the same lines, is never again PENDING_PAYMENT or CANCELLED, and a submission is never taken back; its date and intent are settled in PaymentRaces |
| ProtocolTheorems.IntentPaysOneOrder | src/modules/payments/payments.service.ts:103-110 | In no reachable state do two orders hold the same PaymentIntent |
| ProtocolTheorems.EventActsOnce | src/modules/payments/payments.service.ts:26-48 | A webhook event, however often delivered or raced, is dispatched at most once |
| ProtocolTheorems.OneDeliveryJob | src/modules/payments/payments.service.ts:151-173 | Two delivery jobs of one order are the same job, its order is charged, and its kind is the one the frozen lines decide |
| ProtocolTheorems.NothingToDeliverIsUnreachable | src/modules/outbox/outbox.service.ts:239-250 | Whenever a DELIVER_DIGITAL job has read its order, every line is deliverable and there is at least one, so the "nothing to deliver" error cannot happen |
| MailTrail.SubmittedWasMailed | src/modules/outbox/outbox.service.ts:218-271 | With the mails of a run kept as its history: in every reachable state an order that says it was submitted has the mail of its delivery among them, the one its lines ask for, and a download has besides had a link for each of its lines |
| MailTrail.DoneWasMailed | src/modules/outbox/outbox.service.ts:158-181 | In every reachable state a job that says it is done has its own mail among them |
| MailTrail.StepTrail | src/modules/outbox/outbox.service.ts:183-283 | One step of anybody keeps both, with what each pass under way has got to: after its links a link for each file, after its mail the mail sent |
| ProtocolTheorems.EveryLineHasItsVariant | prisma/schema.prisma:445-452 | In every reachable state each order line points at an existing variant of an existing product |
| ProtocolTheorems.ProductDeletionExact | src/modules/catalog/catalog.service.ts:226-243 | In every reachable state, whatever raced with the guard before it, the deletion transaction run as one step commits iff no order that is not never-charged holds a variant of the product, and then removes the product, its variants and the never-charged orders holding them, and nothing else |
| ProtocolTheorems.DeletionIsAllOrNothing | src/modules/catalog/catalog.service.ts:186-243 | The committing step either makes exactly that change or leaves the database untouched, by a condition on the state at that moment and not at the time of the sales count |
| DeletionOverlap.SplitDeletionExactly | src/modules/catalog/catalog.service.ts:226-243 | With any steps of anybody between the two statements, the deletion commits iff the product is still there, no order that is not never-charged held it at the first statement, and no order of it came in by the second |
| DeletionOverlap.CheckoutRollsBack | src/modules/catalog/catalog.service.ts:226-243 | In every reachable state one checkout of the product between the two statements rolls the deletion back |
| DeletionOverlap.StepStands | prisma/schema.prisma:445-452 | No step of any actor makes an order never-charged that was not, removes one, or changes which products its lines point at |
| ProtocolTheorems.PurgeTakesOnlyAbandoned | src/modules/payments/order-reconciliation.service.ts:142-158 | In every reachable state the purge is never stopped by the delete trigger, removes exactly the never-charged orders older than the limit, and its cascade takes no job and no grant |
| Maintenance.PurgeExactly | src/modules/payments/order-reconciliation.service.ts:142-158 | In every reachable state the purge takes the orders that are PENDING_PAYMENT or CANCELLED, without date and without intent, and made more than 2,592,000,000 ms ago, all of them, and no other row of any table |
| Maintenance.PurgeJobsExactly | src/modules/outbox/outbox.service.ts:50-64 | The purge of the queue takes the DONE jobs completed more than 7,776,000,000 ms ago, all of them, and nothing else |
| Maintenance.VariantDeletionExactly | src/modules/catalog/catalog.service.ts:339-358 | Whatever came between its check and its commit, a variant is deleted iff it is there and no order line names it at the commit, and nothing else moves |
| Maintenance.PartialRefundIsNothing | src/modules/payments/payments.service.ts:191-220 | A refund goes on to its transaction iff it is total and its order is there; any other is received and changes no table |
| Maintenance.ResendExactly | src/modules/orders/purchases.service.ts:172-190 | A resend goes on iff the order is in one of the four bought states and was bought with that address, and carries its lines |
| Maintenance.RetryExactly | src/modules/outbox/admin-retry.controller.ts:54-68 | A retry goes on iff the order is in NEEDS_REVIEW |
| Maintenance.ContactExactly | src/modules/outbox/outbox.service.ts:456-465 | A contact message is queued under its number, not begun, due at once and with five attempts, unless it was already; nothing else moves |
| ProtocolTheorems.OneSignalIsEnough | src/modules/payments/payments.service.ts:250-260 | In every reachable state cancelling on the status alone does exactly what cancelling on all three signals does |
| ProtocolTheorems.MonitorIsComplete | src/modules/outbox/outbox.controller.ts:61-92 | If the four counts, taken together, are zero, every order charged more than thirty minutes ago has been submitted or refunded |
| Maintenance.AlertsExactly | src/modules/outbox/outbox.controller.ts:61-92 | Each count is zero iff there is no such row: an order in review, a failed job, an order PAID and unsubmitted for more than 1,800,000 ms, a pending job due for more than that |
| MonitorReads.AtOneMoment | src/modules/outbox/outbox.controller.ts:61-92 | Four counts taken at one moment of a run are that snapshot |
| MonitorReads.MissedOnlyBetween | src/modules/outbox/outbox.controller.ts:61-92 | Over every run, with each count at a moment of its own: if the answer is healthy and an order was owing at the review count and at the count of stuck orders, it was PAID at the first and in NEEDS_REVIEW at the second, and was escalated between them, or moved back by a retry if they were taken the other way round |
| MonitorReads.MissedExactly | src/modules/outbox/outbox.controller.ts:61-92 | With the other counts zero and that order the only stuck one, the next step makes the answer healthy without it, still owing, iff it escalates it |
| MonitorReads.MissedByRetryExactly | src/modules/outbox/outbox.controller.ts:61-92 | With the other counts zero and that order the only one in review, the next step makes the answer healthy without it, still owing, iff it is the last call of its retry |
| MonitorReads.LastFailureIsMissed | src/modules/outbox/outbox.controller.ts:61-92 | From every reachable state with nothing to report but one stuck order, a job of which is about to fail for the last time, three counts now and the count of stuck orders two steps later are a healthy answer, the order owing at every moment |
| MonitorReads.MonitorCanMiss | src/modules/outbox/outbox.controller.ts:61-92 | There is a run from the empty shop with a healthy answer and a charged, stale, unsubmitted order at every moment from the first read to the last |
| StatusFrames.StepUnmoved | src/modules/outbox/outbox.service.ts:345-409 | Any step of any actor other than a payment, an escalation or a retry of an order puts that order neither in PAID nor in NEEDS_REVIEW |
| ProtocolTheorems.WorkIsBounded | src/modules/outbox/outbox.service.ts:321-361 | A job has been executed at most maxAttempts times (1 + requeues); PENDING and PROCESSING have attempts left, FAILED has used exactly all of them, and outside PROCESSING executions and attempts agree exactly |
| ProtocolTheorems.AttemptsReadIsCurrent | src/modules/outbox/outbox.service.ts:327-343 | What recordFailure read in one call is still in the row when it writes in the next |
| ProtocolTheorems.DownloadBudget | src/modules/orders/downloads.controller.ts:57-88 | For every interleaving of requests, URLs handed out on a grant <= downloadCount <= maxDownloads, which is five for every grant |
| ProtocolTheorems.OneLiveGrantPerLine | src/modules/orders/digital-delivery.service.ts:71-98 | In every reachable state an order line has at most one unrevoked grant |
| GrantOverlap.OneLinkUnlessCollision | src/modules/orders/digital-delivery.service.ts:71-98 | With emissions split at their beginning and their commit, and refunds, downloads and aborts between, every line keeps at most one live link over every run in which no emission begins on a line another is serving |
| GrantOverlap.MoveKeepsSafe | src/modules/orders/digital-delivery.service.ts:71-98 | One half of an emission, or any other move, keeps "one live link per line, and whoever serves a line has seen every live one of it and is alone" iff it is not such a beginning |
| GrantOverlap.CollisionDoubles | src/modules/orders/digital-delivery.service.ts:71-98 | After any such beginning the two emissions can commit and leave a line with two live links |
| GrantOverlap.EmissionIsTwoHalves | src/modules/orders/digital-delivery.service.ts:66-98 | An emission nobody comes between is the emission of the protocol |
| ProtocolTheorems.RevocationIsFinal | src/modules/payments/payments.service.ts:236-243 | A revoked grant stays revoked, at the same instant and for the same line, whatever runs afterwards |
| RefundDownloads.RefundStopsDownloads | src/modules/payments/payments.service.ts:191-247 | Whatever runs after a refund commits, each grant of the order hands out at most one URL more for every request that had read it by then, and no request joins those |
| RefundDownloads.InFlightIsServed | src/modules/orders/downloads.controller.ts:57-88 | The bound is met: a request that had read its grant counts and hands out, revoked or not, if a use is left |
| RefundFinal.StepRests | src/modules/payments/payments.service.ts:191-247 | From a refunded order with nothing under way, no step of any actor changes its status, revives or issues a link of it, or starts anything about it |
| RefundUndone.RefundStandsExactly | src/modules/outbox/outbox.service.ts:183-283 | In every reachable state with the order refunded and its links dead: it stays so over every continuation iff no request, pass or queued job of the order is under way |
| RefundUndone.RefundShuts | src/modules/payments/payments.service.ts:222-243 | A refund that commits in a reachable state leaves its order refunded with every link of it dead |
| RefundUndone.Driven | src/modules/outbox/outbox.service.ts:158-181 | A pass that holds a job can be run, everything throwing, until that job is back in the queue with one attempt more or its order is in NEEDS_REVIEW |
| RefundUndone.QueueSpoils | src/modules/outbox/outbox.service.ts:321-361 | A queued job of any reachable state can be run to its last attempt, whatever is ahead of it in the queue, and takes its order to NEEDS_REVIEW |
| PaymentRaces.ChargeIsFrozen | src/modules/payments/payments.service.ts:65-177 | Once an order is charged and no payment that read it is waiting to commit, its date and PaymentIntent stay, whatever runs |
| PaymentRaces.ChargeIsFinalExactly | src/modules/payments/payments.service.ts:65-177 | When the waiting payments carry intents no other order holds, the charge of a charged order survives every continuation iff no payment is waiting |
| PaymentRaces.RewriteExactly | src/modules/payments/payments.service.ts:102-174 | A payment that commits on an order already charged does nothing if another order holds its intent, and otherwise sets PAID with its own date and intent, keeps lines, submission, every job and every other order, and adds no second delivery to an undelivered one |
| PaymentRaces.RefundCanBeUndone | src/modules/payments/payments.service.ts:65-177 | There is a run from the empty shop in which an order is charged, refunded, and by the second of two payments that read it as pending made PAID again |
| PaymentRaces.FirstPaymentQueuesBoth | src/modules/payments/payments.service.ts:102-174 | In every reachable state the first payment of an order finds both keys free and adds exactly the two jobs, each PENDING, not begun, due at that instant and with five attempts |
| GrantProof.DeliverablesExact | src/modules/orders/digital-delivery.service.ts:54-56 | The filter keeps exactly the lines of kind DIGITAL with a path that is not empty, each once and in order |
| GrantProof.EmitExact | src/modules/orders/digital-delivery.service.ts:66-98 | One emission adds one grant per served line and no other: five uses, none made, 259,200,000 ms to live; it revokes, now, exactly the grants of those lines that were alive, touches no other column, and leaves each line one live grant |
| LinkLife.LinksServeThreeDays | src/modules/orders/digital-delivery.service.ts:66-98 | A link just issued passes the checks of a download at t iff t <= now + 259,200,000 |
| LinkLife.LinksServeFiveTimes | src/modules/orders/downloads.controller.ts:39-94 | Of any visits at any times, it serves as many as come within those 72 hours, up to five, and refuses all others |
| LinkLife.ServedExactly | src/modules/orders/downloads.controller.ts:39-94 | Any live grant of an existing file serves the visits in time, up to the uses it has left, and its counter moves by exactly those |
| PaymentOnce.TakesEffectOnce | src/modules/payments/stripe-webhook.controller.ts:67-95 | Any sequence of deliveries and reconciliations of one paid session commits the payment as often as some attempt goes through, that is never or once, and leaves the orders and the queue exactly as the first such attempt alone would |
| PaymentOnce.EffectOfOne | src/modules/payments/payments.service.ts:102-174 | One payment writes PAID, the date and the intent into its order and keeps its other columns; the confirmation and the delivery its lines ask for are in the queue afterwards, new ones not begun, due at once and with five attempts; no other row of any table moves |
| PaymentOnce.HandlesExactly | src/modules/payments/payments.service.ts:65-177 | The handler makes that payment iff the order is PENDING_PAYMENT, no other order holds the intent and the transaction does not fail; otherwise it changes nothing |
| PaymentOnce.ReconciliationRepairs | src/modules/payments/order-reconciliation.service.ts:173-195 | A delivery that claimed its event and failed, followed by the reconciliation, leaves the same database as a delivery that worked |
| Passes.ExecuteExactly | src/modules/outbox/outbox.service.ts:183-283 | For every kind of job, execute returns iff the mail went out, there is an order unless it is a contact message, a delivery was written down, and a download had links to send; a delivery is written into its order iff it returns; links are issued whenever they can be, even if what follows fails; nothing else moves |
| Passes.ProcessExactly | src/modules/outbox/outbox.service.ts:158-181 | Processing answers done iff execute returned and that could be written, failed iff not and it was the last attempt; the row has one attempt more and its verdict, the order has what execute left and is in review iff failed, and no other row moves |
| Passes.ProcessSettles | src/modules/outbox/outbox.service.ts:158-181 | Processing one job moves that row alone, to DONE, PENDING or FAILED with one attempt more; done means submitted and failed means the order is in NEEDS_REVIEW |
| Passes.RetryIsPaced | src/modules/outbox/outbox.service.ts:335-343 | A job whose processing failed is due again after its ceiling times a quarter plus three quarters of the random number, to the nearest millisecond |
| Passes.BatchSettles | src/modules/outbox/outbox.service.ts:115-125 | The loop settles every job of the batch once, touches no other, and its counters add up to the batch |
| Passes.BatchCounts | src/modules/outbox/outbox.service.ts:115-125 | Each counter of the summary is the number of jobs left DONE, FAILED and PENDING, and only a job whose mail went out is left DONE |
| Passes.PassSettles | src/modules/outbox/outbox.service.ts:99-156 | A whole uninterrupted pass leaves none of its jobs PROCESSING, counts each where it ended, and touches no other |
| Reconciliation.ReconcileExactly | src/modules/payments/order-reconciliation.service.ts:160-226 | Answer by answer: a payment that can be written charges its order with that intent, that date and both jobs; an expired session cancels a pending order; a missing one cancels an order without any signal of a charge; every other answer leaves every table as it was |
| Reconciliation.EachByItsAnswer | src/modules/payments/order-reconciliation.service.ts:55-129 | Over the whole list, each order ends as its own answer says at its turn: recovered with both jobs queued, cancelled, or exactly as it was |
| Reconciliation.PaidIsRecovered | src/modules/payments/order-reconciliation.service.ts:173-195 | Whatever else is on the list, an order that was waiting for a payment Stripe confirms ends PAID with that intent and that date, and both its jobs are in the queue at the end |
| Reconciliation.NothingElse | src/modules/payments/order-reconciliation.service.ts:55-129 | No order off the list, no job that was in the queue and no other table moves |
| Reconciliation.SweepSettles | src/modules/payments/order-reconciliation.service.ts:72-88 | Orders that are not overdue, 2,100,000 ms from their making, are not touched; if fewer than fifty are and every answer charges or closes its order, none is left |
| Reconciliation.ReconciliationAccounts | src/modules/payments/order-reconciliation.service.ts:55-129 | Each counter is the number of orders whose answer belongs in it, a payment counting as recovered unless its order was pending and it could not be written, and every order is in one |
| PassRuns.PassIsARun | src/modules/outbox/outbox.service.ts:99-181 | From any reachable state, the tables an uninterrupted runPending leaves are those of some run of the protocol made of steps of that pass alone |
| RequestRuns.PaymentWebhookIsARun | src/modules/payments/stripe-webhook.controller.ts:67-95 | In the protocol, a payment event received, dispatched and committed with nobody in between, or failing before its commit, leaves the tables of that one attempt |
| RequestRuns.ExpiryWebhookIsARun | src/modules/payments/payments.service.ts:250-271 | An expired session received and dispatched leaves the tables of the conditional cancellation |
| RequestRuns.RefundWebhookIsARun | src/modules/payments/payments.service.ts:191-247 | A refund received, dispatched and committed leaves the refund transaction's tables when it is total and its order is there, and only the record of the event otherwise |
| RequestRuns.SweepIsARun | src/modules/payments/order-reconciliation.service.ts:55-129 | The calls of a whole sweep, order by order and whatever fails, are a run of the protocol and leave the tables of the reconciliation |
| RequestRuns.RetryIsARun | src/modules/outbox/admin-retry.controller.ts:54-99 | The three calls of a retry bring an order in review with failed jobs back to PAID with those jobs due, and otherwise change nothing |
| RequestRuns.DeletionIsARun | src/modules/catalog/catalog.service.ts:186-268 | In every reachable state the guard and the transaction of a product's deletion leave that transaction's tables iff the product is there and has no sales, and otherwise change nothing |
| RequestRuns.VariantDeletionIsARun | src/modules/catalog/catalog.service.ts:339-358 | The two calls of a variant's deletion take that variant iff it is there and no order line names it |
| RequestRuns.ResendIsARun | src/modules/orders/purchases.service.ts:172-190 | The two calls of a resend issue the links of a bought order, for the address it was bought with and if it has any, and otherwise change nothing |
| RequestRuns.DownloadIsARun | src/modules/orders/downloads.controller.ts:39-94 | The three calls of a download are one visit to the link, and hand out a URL iff it is served |
| Backoff.BackoffMs | src/modules/outbox/outbox.service.ts:425-434 | The wait lies between a quarter of the ceiling and the ceiling, and is the ceiling times (1/4 + 3/4 random) to the nearest millisecond |
| Backoff.CeilingDoubles | src/modules/outbox/outbox.service.ts:426-429 | The first ceiling is 60,000 ms, and each next one twice the one before or 3,600,000 ms, whichever is less |
| Backoff.WaitFollowsRandom | src/modules/outbox/outbox.service.ts:430-433 | A larger random number never shortens the wait |
| Backoff.TotalWaitBound | src/modules/outbox/outbox.service.ts:425-434 | n waits add up to between a quarter of the first n ceilings and all of them, which are 60,000 (2^n - 1) ms up to the sixth and 3,600,000 ms more for each one after it |
| Services.Shop.HandlePaymentSucceeded | src/modules/payments/payments.service.ts:65-177 | Charges the order, exactly as one payment does, iff it is pending, nobody else holds the intent and nothing fails; throws iff it is pending and one of the others is not so, and then leaves every table alone |
| Services.Shop.HandleSessionExpired | src/modules/payments/payments.service.ts:250-271 | Cancels the order iff it is PENDING_PAYMENT, and touches no other column or row |
| Services.Shop.HandleChargeRefunded | src/modules/payments/payments.service.ts:191-247 | A total refund writes REFUNDED and revokes, now, the live grants of the order, nothing else, after which none of them passes the checks of a download at any time; a partial one or a failed transaction changes nothing |
| Services.Shop.ReceiveRefund | src/modules/payments/stripe-webhook.controller.ts:67-95 | The first delivery of a refund event does exactly that when it is total and works; any other leaves everything but the record of the event |
| Services.Shop.ReceivePayment | src/modules/payments/stripe-webhook.controller.ts:67-95 | Claim first, then handle, swallowing the failure: the first delivery charges the order iff it can be, and anything else only records the event |
| Services.Shop.Cancelar | src/modules/payments/order-reconciliation.service.ts:215-226 | Cancels the order iff it is PENDING_PAYMENT or CANCELLED without date and without intent, and touches no other column or row |
| Services.Shop.ReconcileRun | src/modules/payments/order-reconciliation.service.ts:55-129 | The loop leaves each order as its own answer says and each counter at the number of orders whose answer belongs in it |
| Services.Shop.EmitirEnlaces | src/modules/orders/digital-delivery.service.ts:51-101 | The loop leaves one new grant per served line, of five uses and 259,200,000 ms, the live ones of those lines revoked and every other as it was, and returns one link per line, in order, with that line's name |
| Services.Shop.Download | src/modules/orders/downloads.controller.ts:39-94 | A download is granted exactly to a grant that is not revoked, not past its expiry, not used up and whose line has a file; it moves that counter by one, answers with that file, and 410 is answered exactly to expired or spent ones |
| Services.Shop.ClaimBatch | src/modules/outbox/outbox.service.ts:137-156 | The claim turns exactly the jobs of the list still PENDING to PROCESSING, changes no other column, and answers with all of the list or nothing; when the list is what the query finds in these tables, it takes all of it |
| Services.Shop.ExecuteJob | src/modules/outbox/outbox.service.ts:183-283 | Returns iff the job succeeds on the answers of the world, and leaves exactly what such a job leaves |
| Services.Shop.RecordJobFailure | src/modules/outbox/outbox.service.ts:321-409 | One attempt more in that row and no other; FAILED iff it was the last one allowed, and then the order is in review |
| Services.Shop.ProcessJob | src/modules/outbox/outbox.service.ts:158-181 | Done iff the job succeeded and that could be written; the row has one attempt more and its verdict, and the orders are those execute left with the one of a last failure in review |
| Services.Shop.RunBatch | src/modules/outbox/outbox.service.ts:108-125 | The loop leaves each job with its verdict, its summary counts the jobs left in each state, and only a job whose mail went out is left DONE |
| Services.Shop.RunPending | src/modules/outbox/outbox.service.ts:99-129 | A second call while one runs does nothing; otherwise it takes pending jobs whose time has come, all of them or ten no later than the rest, leaves each with its verdict, counts them, touches no other job, and releases the flag |
| Services.Shop.Retry | src/modules/outbox/admin-retry.controller.ts:54-99 | Only an order in NEEDS_REVIEW with failed jobs goes back to PAID; exactly its failed jobs are due again at once with a full allowance, and no other job moves |
| Services.Shop.RemoveProduct | src/modules/catalog/catalog.service.ts:186-268 | Succeeds exactly for an existing product without sales, and then the product, its variants and the orders holding it are gone with their jobs and links, and no other row |
| Checkout.AcceptedExactly | src/modules/checkout/checkout.service.ts:180-220 | A cart is accepted iff each of its variants is on sale, producible or downloadable, and at most ten units in all |
| Checkout.FirstRefusalOf | src/modules/checkout/checkout.service.ts:180-220 | A refused cart is refused for the first entry that is not acceptable, and for the first check that entry fails |
| Checkout.LinesOfCart | src/modules/checkout/checkout.service.ts:166-235 | One line per variant, in order of appearance, with the cart's quantity and the catalogue's name, kind, file and price of that variant, and price times quantity |
| Checkout.KeysInOrder | src/modules/checkout/checkout.service.ts:161-178 | The merged entries stand in the order in which the cart first asks for them |
| Checkout.CartConserved | src/modules/checkout/checkout.service.ts:66-69 | The subtotal equals price times quantity summed over the raw, unmerged cart |
| Checkout.OrderDoesNotMatter | src/modules/checkout/checkout.service.ts:166-173 | Any permutation of a cart is accepted alike and costs the same |
| Checkout.StripeChargesTheTotal | src/modules/checkout/checkout.service.ts:263-292 | What Stripe is asked to charge, shipping included, equals the order's total |
| Checkout.LimitExact | src/modules/catalog/dto/product.dto.ts:56-69 | For every price limit: all valid carts that catalogues within it accept fit a signed 32-bit column iff 200 times the limit does |
| Checkout.SubtotalFits | src/modules/catalog/dto/product.dto.ts:164-168 | With variant prices within their form's limit, no valid cart passes 2,000,000,000, which fits that column |
| Checkout.DigitalPricesOverflow | src/modules/catalog/dto/product.dto.ts:56-69 | With the limit of the product form there is a valid, accepted cart that does not fit |
| Checkout.FrozenLinesDeliverable | src/modules/checkout/checkout.service.ts:188-216 | Every frozen line names a known variant and a digital one has its file |
| Checkout.CheckoutPaymentDeliveryAgree | src/modules/checkout/checkout.service.ts:61-66 | From the cart and the catalogue: the payment queues DELIVER_DIGITAL, checkout asks no address and charges no shipping, and the delivery emits one link per line, at least one, iff every item's variant is DIGITAL; otherwise an address is asked and the shipping is the setting's value if that is a non-negative integer, and 0 if not |
| Checkout.CheckoutStepTakesIt | src/modules/checkout/checkout.service.ts:50-150 | The lines of an accepted cart pass every check of the protocol's checkout step, which stores them as a pending order and touches no other |
| Checkout.CheckoutService.Merge | src/modules/checkout/checkout.service.ts:166-173 | The Map loop yields the distinct variants in order of appearance and their summed quantities |
| Checkout.CheckoutService.BuildLinesFromDatabase | src/modules/checkout/checkout.service.ts:158-236 | The lines of the cart as the catalogue has them, or the first refusal met in order |
| Checkout.CheckoutService.CreateSession | src/modules/checkout/checkout.service.ts:50-150 | A refused cart writes nothing; an accepted one is stored, before Stripe is called, with its lines, the price of the raw cart, its shipping and their sum; Stripe is asked for those lines, that shipping, and an address iff something is sent; a session that failed leaves the order stored without one |
| Catalog.EditKeeps | src/modules/catalog/catalog.service.ts:159-179 | For every edit of a product, "what is on sale is publishable" survives iff the edit is not one of the two unchecked ones |
| Catalog.RunStaysSellable | src/modules/catalog/catalog.service.ts:315-358 | It survives any sequence of checked edits |
| Catalog.OnSaleIsDeliverable | src/modules/checkout/checkout.service.ts:188-216 | After any such sequence checkout refuses an active variant on sale only for the number of units |
| CatalogEdits.EditExactly | src/modules/catalog/catalog.service.ts:159-358 | Every edit of the panel, field by field: what the form gives is what the row has afterwards and what it leaves out stays, no other row moves, and it is refused exactly for its stated reason |
| Catalog.PublishCanBeOvertaken | src/modules/catalog/catalog.service.ts:159-179 | A deletion between the check and the write of publishing leaves a product on sale without variants |
| CatalogOverlap.PublishableAfter | src/modules/catalog/catalog.service.ts:394-465 | For every product and every edit, whether it passes the publishing check afterwards, read off the product and the edit beforehand |
| CatalogOverlap.PublishOvertaken | src/modules/catalog/catalog.service.ts:159-179 | An edit between the check and the write of publishing leaves a deliverable product iff it does not undo the check |
| CatalogOverlap.PublishOvertakenByMany | src/modules/catalog/catalog.service.ts:159-179 | The same for any sequence of edits, some undoing and some mending |
| CatalogOverlap.OverlapExactly | src/modules/catalog/catalog.service.ts:307-358 | Two transactions on different rows, each passing its own check under read committed, leave a deliverable product iff they do not take away the last two active variants or the last two images between them |
| CatalogOverlap.OverlapOfMany | src/modules/catalog/catalog.service.ts:307-358 | The same for any number of such transactions: deliverable iff they do not take away every active variant, none of them leaving its own active, or every image |
| CatalogOverlap.AloneIsWritten | src/modules/catalog/catalog.service.ts:307-358 | A transaction that passes alone leaves exactly the rows it wrote, so the overlap differs from two requests in turn by the checks only |
| CatalogOverlap.LastTwoVariants | src/modules/catalog/catalog.service.ts:339-358 | Deleting the last two active variants of any product on sale at once passes both checks and leaves nothing to sell |
| CatalogOverlap.LateAssetRemoval | src/modules/catalog/digital-asset.service.ts:68-90 | A file removed by a request that read the product earlier breaks the promise iff the product is on sale, digital, and the variant active |
| CatalogOverlap.UploadOvertaken | src/modules/catalog/product-images.service.ts:46-86 | An upload with any edits between its count and its write keeps the limit iff fewer than ten images are there at the write, keeps dense positions iff as many are there as it counted, and keeps at most one primary; there is a primary iff it is one itself or one was there |
| Catalog.OnePrimaryKept | src/modules/catalog/product-images.service.ts:66-86 | Every edit keeps at most one primary image |
| Catalog.ImagesBounded | src/modules/catalog/product-images.service.ts:46-56 | No edit takes a product past ten images, and only an upload adds one |
| Catalog.PrimaryKept | src/modules/catalog/product-images.service.ts:102-116 | Every edit keeps a primary image where there are images, except taking the mark off the one that has it |
| Catalog.ReorderExact | src/modules/catalog/product-images.service.ts:120-146 | An accepted list puts every image where it says iff it repeats none |
| Catalog.ReorderShown | src/modules/catalog/product-images.service.ts:120-150 | After an accepted list without repetitions there is one possible listing, and it is that list |
| Catalog.ReorderIsDense | src/modules/catalog/product-images.service.ts:140-147 | Then the positions are 0 to n - 1, each taken once |
| Catalog.EveryPositionTaken | src/modules/catalog/product-images.service.ts:131-134 | Pigeonhole: n images on distinct positions below n leave none free |
| Catalog.UploadStaysDense | src/modules/catalog/product-images.service.ts:46-86 | An upload keeps such positions |
| Catalog.DeletionStaysDense | src/modules/catalog/product-images.service.ts:155-171 | A deletion keeps them iff it removed the last image |
| ProductDesk.Desk.FindProblems | src/modules/catalog/catalog.service.ts:412-465 | Each problem is listed iff it is there, and the list is empty iff the product is publishable |
| ProductDesk.Desk.EditProduct | src/modules/catalog/catalog.service.ts:159-179 | The fields given are written and no other, or a refusal that changes nothing, exactly when it would publish what cannot be; what is on sale stays deliverable unless the edit is the unchecked change of kind |
| ProductDesk.Desk.EditVariant | src/modules/catalog/catalog.service.ts:307-337 | Each field the form gives is what that variant has afterwards, its price included, each it leaves out stays, the file too, and no other row moves; or the rollback of what was written; what is on sale stays deliverable |
| ProductDesk.Desk.DropVariant | src/modules/catalog/catalog.service.ts:339-358 | That variant is gone and no other row moves, or its rollback; what is on sale stays deliverable |
| ProductDesk.Desk.AddImage | src/modules/catalog/product-images.service.ts:39-86 | Keeps at most ten images and one primary; on success the image is there with the others, and alone primary if it was asked to be or is the first |
| ProductDesk.Desk.EditImage | src/modules/catalog/product-images.service.ts:95-118 | Keeps at most one primary; an image made primary is the only one afterwards |
| ProductDesk.Desk.SortImages | src/modules/catalog/product-images.service.ts:120-150 | The loop of updates leaves the positions of the reorder function; a list of the wrong length or with a foreign id changes nothing |
| ProductDesk.Desk.DropImage | src/modules/catalog/product-images.service.ts:152-190 | The next image by position takes over; the last image of a product on sale is put back |
| ProductDesk.Desk.AddAsset | src/modules/catalog/digital-asset.service.ts:27-66 | Only a digital product takes a file; the variant has that path afterwards, whatever it had before, and every other column and row is as it was |
| ProductDesk.Desk.DropAsset | src/modules/catalog/digital-asset.service.ts:68-90 | Succeeds exactly off sale, leaves the variant without a file and every other column and row as it was |
| Auth.OneLiveTokenPerChain | src/modules/auth/auth.service.ts:87-131 | Over any run a replaced token is revoked and keeps its one successor, no token succeeds two, and of the tokens descending from one login at most one is alive |
| Auth.RefreshConserves | src/modules/auth/auth.service.ts:125-130 | A granted refresh swaps one live token for another and changes nobody else's |
| Auth.IssuedForSevenDays | src/modules/auth/auth.service.ts:245-254 | A token issued by a login or a refresh is exchanged for another exactly until 604,800,000 ms later |
| Auth.OverlapBranchesAChain | src/modules/auth/auth.service.ts:98-130 | Two refreshes that both read one token before either writes are both granted and leave two live tokens in its chain |
| AuthOverlap.OneLiveTokenUnlessCollision | src/modules/auth/auth.service.ts:92-131 | With login and refresh split into their calls and any requests between them, over every run in which no refresh is let in on a token another refresh holds, at most one of the tokens descending from a login is alive |
| AuthOverlap.MoveKeepsSafe | src/modules/auth/auth.service.ts:92-131 | One call by anybody keeps "one refresh in flight per chain, and it holds the chain's only live token" iff it is not such a collision |
| AuthOverlap.ExclusiveExactly | src/modules/auth/auth.service.ts:98-130 | From any state with one live token per chain, that condition holds iff no continuation without a new refresh leaves two |
| AuthOverlap.CollisionBranches | src/modules/auth/auth.service.ts:98-130 | Every collision can be finished into two live tokens of one login |
| AuthOverlap.TwoRotations | src/modules/auth/auth.service.ts:125-130 | Two rotations of live tokens, both read before either writes, keep one live token per chain iff the tokens differ |
| AuthOverlap.ClosedExactly | src/modules/auth/auth.service.ts:92-131 | A user without live tokens has no session in any continuation without a new login of theirs iff no login and no refresh of theirs is in flight |
| AuthOverlap.ReachableIsOk | src/modules/auth/auth.service.ts:92-131 | Over every run, whatever overlaps: a replaced token is revoked, its successor is of the same user and login, and succeeds it alone |
| AuthOverlap.ChangeClosesExactly | src/modules/auth/auth.service.ts:200-212 | In every reachable state the commit of a password change leaves no live token, and none ever without a new login, iff no login and no refresh of that user was in flight |
| AuthOverlap.ChangeOvertaken | src/modules/auth/auth.service.ts:173-213 | A change that was let in takes effect whatever comes before its commit; the password it replaces is the one it was checked against iff no other change came between or the last one put it back, and differs from the new one iff the last one was not to the same |
| AuthOverlap.TwoChanges | src/modules/auth/auth.service.ts:173-213 | Two changes checked against one password both take effect, and the later commit is the one that stays |
| AuthOverlap.ChangeIsTwoCalls | src/modules/auth/auth.service.ts:173-213 | A change nobody comes between is the one of the other model |
| AuthOverlap.RefreshIsThreeCalls | src/modules/auth/auth.service.ts:92-131 | A refresh nobody comes between is the refresh of the other model, all branches |
| AuthOverlap.LoginIsTwoCalls | src/modules/auth/auth.service.ts:62-85 | The same of a login |
| Auth.ClosedForGood | src/modules/auth/auth.service.ts:200-212 | Once a user has no live token, no token issued until then ever yields a session again, whatever is requested |
| Auth.AuthService.LogIn | src/modules/auth/auth.service.ts:62-85 | Keeps the lineage; with the right password of an active user adds one row, alive for 604,800,000 ms, otherwise nothing moves |
| Auth.AuthService.RefreshSession | src/modules/auth/auth.service.ts:92-131 | Keeps the lineage; succeeds iff the token is live, unexpired and of an active user, and then kills its row now and adds its one successor, alive for 604,800,000 ms; a revoked token, or one in time of an inactive user, kills every live row of its user; any other changes nothing |
| Auth.AuthService.LogOut | src/modules/auth/auth.service.ts:134-146 | Keeps the lineage; kills now the row of the token presented, if it is alive, and touches no other |
| Auth.AuthService.SetPassword | src/modules/auth/auth.service.ts:173-213 | Keeps the lineage; on success, which is exactly a right current password and a different new one, the new one is written and no other is asked for, every live row of that user is killed now, and no other row moves |
| CircuitBreaker.StateIsHistory | src/common/resilience/circuit-breaker.ts:34-36 | The counter is min(failures since the last success, threshold), the circuit is open iff the threshold was reached, and the deadline is one rest after the last failure |
| CircuitBreaker.RejectedIffOpen | src/common/resilience/circuit-breaker.ts:52-76 | A call is refused iff the history alone says the circuit is open at its arrival |
| CircuitBreaker.FailuresArePaced | src/common/resilience/circuit-breaker.ts:87-113 | Without a success, each invocation past the threshold comes a full rest after the one before |
| CircuitBreaker.InvocationBound | src/common/resilience/circuit-breaker.ts:52-113 | From a fresh breaker and without a success, at most threshold + floor(elapsed / rest) invocations |
| CircuitBreaker.Cortacircuitos.Run | src/common/resilience/circuit-breaker.ts:47-76 | The three fields stay the summary of the whole history of calls; a call is refused iff isOpen says so at its arrival, which is iff the history does, and a refused call changes nothing |
| CircuitBreaker.Cortacircuitos.IsOpen | src/common/resilience/circuit-breaker.ts:47-50 | What readiness reports is what the history says |
| CircuitOverlap.FieldsAreHistory | src/common/resilience/circuit-breaker.ts:34-36 | With arrivals and endings in any order: the circuit is not closed iff the failures since the last success reach the threshold, its deadline is one rest after the last failure, and a trial is under way only past it |
| CircuitOverlap.RefusedExactly | src/common/resilience/circuit-breaker.ts:52-76 | Then an arriving call is refused iff the threshold was reached since the last success and the last failure ended less than a rest ago |
| CircuitOverlap.TrialIsNotAlone | src/common/resilience/circuit-breaker.ts:62-64 | Once a call is let through, every other that arrives before any call ends is let through too |
| CircuitOverlap.OneAtATime | src/common/resilience/circuit-breaker.ts:52-113 | For calls one after another this is the breaker of the other model |
| DailySeries.NextIsOneDay | src/modules/orders/orders.service.ts:256 | Moving the cursor advances the day count by exactly one, across month ends, leap days and new years |
| DailySeries.OrdinalOrder | src/modules/orders/orders.service.ts:246-256 | Calendar order and day count agree, and no two dates share a count |
| DailySeries.TextIsCalendarOrder | src/modules/orders/orders.service.ts:245-249 | For four-digit years the order of the ISO texts is calendar order, and the text names its day |
| DailySeries.TextReadsBack | src/modules/orders/orders.service.ts:245-249 | Year, month and day can be read back from the text, each at its place; of a year past 9999, which takes a sign and six digits, year and month |
| DailySeries.GroupedExact | src/modules/orders/orders.service.ts:210-235 | The grouped row of a day in the range, zero if missing, is the direct sum over the sold orders of that day |
| DailySeries.OneMoreSale | src/modules/orders/orders.service.ts:13-19 | One order more adds one, and its total, to its own day iff it is PAID, IN_PRODUCTION, SHIPPED, DELIVERED or NEEDS_REVIEW, and nothing to any other day |
| DailySeries.Fill | src/modules/orders/orders.service.ts:240-257 | The loop always ends; it ends with the filled series iff the range is empty or does not end on 9999-12-31 |
| DailySeries.EveryDayOnce | src/modules/orders/orders.service.ts:240-257 | Every calendar day of the range is listed once, with its own figures |
| DailySeries.SeriesAddsUp | src/modules/orders/orders.service.ts:240-257 | The figures of the series add up to those of the range |
| HtmlEscape.EscapeOne | src/modules/notifications/email-layout.ts:41-48 | Each of the five characters becomes its own entity, letter by letter, and every other stays |
| HtmlEscape.EscapeConcat | src/modules/notifications/email-layout.ts:41-48 | The escaping of two texts joined is their escapings joined, so those six cases are the whole of it |
| HtmlEscape.ChainedIsAtOnce | src/modules/notifications/email-layout.ts:41-48 | The five chained replacements equal one simultaneous replacement, on every text |
| HtmlEscape.EscapingLosesNothing | src/modules/notifications/email-layout.ts:41-48 | Escaping is injective |
| HtmlEscape.EscapedIsInert | src/modules/notifications/email-layout.ts:34-48 | Escaped text contains no bracket and no quote |
| HtmlEscape.UnescapeInvertsEscape | src/common/utils/text-sanitize.util.ts:17-22 | The single pass undoes one escaping of & < > on every text |
| HtmlEscape.UnescapeShrinks | src/common/utils/text-sanitize.util.ts:17-22 | A pass that changes a text makes it strictly shorter |
| HtmlEscape.AmpersandLastIsOnePass | src/common/utils/text-sanitize.util.ts:10-22 | The chain that undoes the ampersand last equals the single pass on every text |
| HtmlEscape.AmpersandFirstIsNot | src/common/utils/text-sanitize.util.ts:10-22 | The chain that undoes it first takes off one layer too many |
| HtmlEscape.OnePassOneLayer | src/common/utils/text-sanitize.util.ts:17-22 | On every text one pass lowers the depth, the most wrapped ampersand, by exactly one |
| HtmlEscape.RestsAtZero | src/common/utils/text-sanitize.util.ts:17-22 | A text is a fixpoint of the pass iff its depth is zero |
| HtmlEscape.SanitizePlainText | src/common/utils/text-sanitize.util.ts:50-70 | For any tag remover the bounded loop returns, trimmed, the first stable text of its turns, or the last |
| HtmlEscape.StableIffShallow | src/common/utils/text-sanitize.util.ts:44-70 | For a text in which the remover finds no tag, the loop ends on a stable text, and the trimmed result is a fixpoint of the pass, iff the depth of the given one is at most five |
| HtmlEscape.TrimDepth | src/common/utils/text-sanitize.util.ts:62-69 | Trimming the ends of a text changes no depth |
| HtmlEscape.TrimExact | src/common/utils/text-sanitize.util.ts:62-69 | Trimming takes the white space off both ends, all of it, and nothing else |
| HtmlEscape.CapStopsShort | src/common/utils/text-sanitize.util.ts:44-50 | Of the texts "&amp;" repeated in front of "lt;" the loop settles exactly those with at most four repetitions; the first it does not has twenty-four characters |
| Latency.PercentileExact | src/common/observability/latency.registry.ts:94-100 | For every quotient in (0, 1] the percentile is the least sample with at least that part of the samples at or below it |
| Latency.FiguresInOrder | src/common/observability/latency.registry.ts:60-72 | Each figure is the least sample with 50, 95 or 99 hundredths of the samples at or below it; they are in order, and max is the slowest sample |
| Latency.OneMore | src/common/observability/latency.registry.ts:44-55 | One more record moves the window of its route, drops the oldest of a full one, and touches no other route |
| Latency.WindowExact | src/common/observability/latency.registry.ts:44-55 | The window is the last five hundred samples of its route, or all of them while there are fewer |
| Latency.Registry.Record | src/common/observability/latency.registry.ts:44-55 | After any records each list is the last 500 of its route in order, and the counter all failures since the reset |
| Latency.Registry.Snapshot | src/common/observability/latency.registry.ts:57-78 | One row per route seen, computed from its window, slowest first |

## Left out

Each line names something the repository does that the model does not.

- Liveness of claimed jobs: a partial claim or a crash leaves rows PROCESSING that no pass will take again (`src/modules/outbox/outbox.service.ts:150-155`); the theorems say such an order is not lost, not that it is delivered.
- PaymentOnce.TakesEffectOnce: takes each handler as one step. With read and commit apart, a second commit is possible and rewrites status, date and intent, a refund included; `PaymentRaces.dfy` says exactly when and what.
- PaymentRaces.ChargeIsFinalExactly: assumes the waiting payments carry intents no other order holds, as Stripe's do, which name one order; without that `PaymentRaces.ChargeIsFrozen` and `PaymentRaces.RewriteExactly` still hold.
- RefundUndone.RefundStandsExactly: makes the same assumption, for the direction from "under way" to "can be undone"; the other one is `RefundFinal.RunRests`, which needs none.
- ProtocolTheorems.ProductDeletionExact: takes the transaction as one step; `DeletionOverlap.dfy` splits it.
- DeletionOverlap.SplitDeletionExactly: the rows the first statement deleted stay as they are until the end, as their locks make them.
- ProtocolTheorems.OneLiveGrantPerLine: takes the emission transaction as one step; `GrantOverlap.dfy` splits it under read committed. That one emission waits for the rows another has locked only orders their commits, which that model leaves free.
- ProtocolTheorems.MonitorIsComplete: takes the four counts as one snapshot; `MonitorReads.dfy` takes them apart.
- Auth.OneLiveTokenPerChain: takes a request as one step; `AuthOverlap.dfy` splits login, refresh and password change into their calls. Hashes are injective, new tokens fresh, and bcrypt decides equality.
- Auth.ClosedForGood: takes a request as one step; `AuthOverlap.ClosedExactly` says when it survives overlap.
- CircuitBreaker.RejectedIffOpen: for calls that do not overlap, as is the bound on invocations; `CircuitOverlap.dfy` is about calls that do, where no such bound holds, since any number may arrive before the first failure ends.
- Catalog.EditKeeps: takes a request as one step; `CatalogOverlap.dfy` has the publishing check overtaken by any edits, and any number of self-checking transactions at once.
- Catalog.ImagesBounded: takes an upload as one step; `CatalogOverlap.UploadOvertaken` splits it.
- HtmlEscape.StableIffShallow: is about texts in which the remover finds no tag in any turn, where sanitize-html decodes entities and escapes again; for texts with tags only `HtmlEscape.SanitizePlainText` speaks.
- HtmlEscape.SanitizePlainText: sanitize-html is any function.
- Latency.PercentileExact: q is an exact fraction; rounding of `q * length` in floating point is not modelled.
- DailySeries.GroupedExact: the time zone conversion is a day given with each order, and the SQL engine plain grouping. Ranges start in year 1 or later, as PostgreSQL dates do.
- MailTrail.SubmittedWasMailed: a mail that went out is one the mail service took; whether it arrives is not in the model. A pass that dies after its mail and before its write sends it again.
- Reconciliation.EachByItsAnswer: the sweep runs alone. Its calls are steps of the protocol (`RequestRuns.SweepIsARun`), where anybody may come between them.
- Services.Shop.RunPending: the class runs one method at a time; interleavings are in `Protocol.dfy`.
- Order events, review reasons, last errors, job payloads, the newsletter subscription and the buyer's address: written beside the modelled fields, read by none of the modelled code. Nor are labels, SKUs and print files of order lines.
- The contact message that was deleted before its mail, and `enqueue`, which has no caller.
- Marking webhook events processed, signature checks, and triggering a pass after an event.
- The bytes in storage buckets: files are paths; removing them afterwards changes no table.
- Unique names, slugs and SKUs of the catalogue, and its listings.
- The request for an access link to past purchases, and its tokens; the resend of downloads it leads to is a step of the protocol.
- Access tokens (JWT), cookies, guards, throttling, validation of request bodies beyond the limits named above.
- Notes, subscribers, contact lists, settings screens, telemetry, audit, pagination, statistics by range: flat reads and writes with only easy members.
