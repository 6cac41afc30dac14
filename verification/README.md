# Billing state machine and gateway protocols

A Dafny model of the part of the billing service that keeps three things
consistent: the local rows (payments, subscriptions, gateway operations, webhook
events and deliveries), the remote gateway, and the notifications sent
downstream. Verify with `dafny verify dfyconfig.toml` in this directory.

The modules, from the ground up:

- `BillingCalendar`, `Documents`: the calendar and the check digits, values only.
- `Entities`, `EntityObjects`, `Storage`: the rows and the rules on them as
  functions; the entities as classes whose methods are proved against those
  rules; the tables with their unique keys and a unit of work with a committed
  and a working copy.
- `RowMeanings`: what the rules on one row mean, told from the rows before and
  after and without naming a rule: a diagram of payment statuses, the extension by
  one period, the end of a subscription, the outcomes of an operation.
- `EventIds`, `WebhookRules`, `WebhookService`, `WebhookFootprint`: the identity
  of a webhook, what one webhook does to the committed state, the service object
  proved to do that, and the tables a commit touches.
- `...Outcomes` and `DeliveryLaws`: in the same terms, what each webhook, each step
  of a gateway job and each reconciliation commits, when exactly it is refused, and
  what the consumer is told.
- `DuplicateLaws`, `ReorderLaws`, `InvoiceLaws`, `FenceLaws`: laws of runs of
  webhooks (repeats, order, invoices, superseded checkouts).
- `Transactions`, `TransactionLaws`, `RunLaws`, `OperationLaws`, `PaymentRowLaws`:
  every commit of the core as a function on the committed state, and what every
  run of them keeps. `ExtensionLaws` and `NoticeLaws`: a charge's extensions and a
  webhook's delivery, with any commits between.
- `CancellationProtocol`, `CheckoutProtocol`, `SubscriptionProtocol`: the three
  gateway protocols as machines whose steps are what happens between two awaits,
  with crashes, failed commits, uncertain calls and everything else that commits
  in between. `...Laws` has the invariants and theorems, `...Service` the use case
  as imperative code. Its methods carry a ghost record of the steps taken since a
  start state, and their contracts say that the present is what those steps make
  of it, so the theorems about all runs hold of the code.
- `ReconcileService`: the reconciliation loop and `ReconcilePayment`.
- `WebhookLock`, `WebhookWorker`: the lock of one event as interleaved Redis steps,
  and one try of the job under it.
- `Idempotency`, `IdempotencyRoute`: the idempotency key as interleaved requests,
  and the route.

Conventions. A row is identified by its position in its table, and rows are never
removed. An absent text is `""` and an absent amount 0, as the entities treat them.
`Ended` is the status CANCELED of a subscription, `Unpaid` its PENDING, `Rejected`
the status FAILED of an operation, `InProgress` its PENDING. `None` of a rule is a
DomainError; of a transaction, an exception before its commit. `mayFail`, `mayRaise`
and `mayDie` say whether commits, gateway calls and the process may fail; contracts
say how a use case ends when none of them does.

Where the code and its documentation differ, the model follows the code:

- A retried FAILED operation is not set back to PENDING before the gateway call
  (`app/application/use_cases/create_checkout.py:88-108`). A retry that dies after
  its call leaves no trace of it; `CheckoutLaws.LostExactlyOnRetry` says when, and
  `CheckoutLaws.RetryMayIssueTwice` shows the second checkout.
- A renewal writes back the row it read before the gateway call
  (`app/application/use_cases/create_checkout.py:130-138`); `RunLaws.StaleRenewal`
  says exactly when that undoes a settlement, and `RunLaws.SettlementTakenBack` is a run in which it does.
- An extension is keyed on the payment date, not on the payment
  (`app/application/use_cases/process_webhook.py:175`), so one charge may
  extend twice: `ExtensionLaws.OneChargeExtendsTwice` by two dates, and
  `ExtensionLaws.OneDateExtendsTwice` by another charge between its two webhooks.
  `ExtensionLaws.SecondExtendsExactly` says when, over any run.
- Reconciliation completes an operation whose checkout it does not bind, when the
  payment has left EXPIRED or CANCELED meanwhile
  (`app/workers/tasks.py:909-942`); `ReconcileService.AllOrNothing` has the exact
  condition, and `ReconcileService.RecoveredCheckoutLost` is a run in which it does.
- A lock can be deleted by a job that does not hold it
  (`app/workers/tasks.py:300-302`); `WebhookLock.DeletesAnothersExactly` gives the condition.
- Clamping at the end of a month is monotone on dates and not on instants
  (`BillingCalendar.ExtensionOrderOnInstants`).

## Model

| member | source | states |
|---|---|---|
| `RowMeanings.WordsFollowTheDiagram` | app/application/use_cases/reconcile_payment.py:12-41 | For each word of a gateway and each status: where the payment goes, that it stays, or that it is refused; and the dates and net value it moves with, nothing else changing |
| `RowMeanings.EndsAndRenewals` | app/domain/entities/payment.py:136-217 | Canceling, expiring, refunding and renewing apply exactly in their statuses, with their dates; a renewal takes the new id, link and reference, is pending, and keeps every other field |
| `RowMeanings.ExtendsByPeriod` | app/domain/entities/subscription.py:96-106 | Unless ended, the expiry becomes one billing period after the later of the payment date and the old expiry, the status ACTIVE, the date the last one, and nothing else changes |
| `RowMeanings.EndsMean` | app/domain/entities/subscription.py:119-152 | A request notes its reason, job and time unless one stands; an end sets the time given or now, keeps what it is not given, and dates the request if nobody did |
| `RowMeanings.OperationRulesMean` | app/domain/entities/gateway_operation.py:46-66 | What completing, failing and setting aside write, and that they keep key, provider and payload |
| `BillingCalendar.ExtensionIsOnePeriod` | app/domain/entities/subscription.py:13-29 | The extension is the one instant whose month lies the period's months on, on the same day or the last of the month, at the same time |
| `WebhookOutcomes.DeletedOutcome` | app/application/use_cases/process_webhook.py:247-258 | PAYMENT_DELETED always commits: the invoice is CANCELED now if it was PENDING, OVERDUE or CONFIRMED, and every other row stands |
| `WebhookOutcomes.InactivatedOutcome` | app/application/use_cases/process_webhook.py:260-277 | An inactivation always commits: the subscription named is CANCELED now, and its notice follows |
| `WebhookOutcomes.InactivatedRefused` | app/application/use_cases/process_webhook.py:260-277 | Without a subscription, or with an unknown one, it is refused |
| `WebhookOutcomes.LifecycleOutcome` | app/application/use_cases/process_webhook.py:299-356 | Overdue, refund and chargeback move the stored invoice as the diagram says and tell the consumer; no move is only recorded, a refused OVERDUE too |
| `WebhookOutcomes.LifecycleWithout` | app/application/use_cases/process_webhook.py:299-356 | Refused without the subscription, only recorded without the invoice |
| `WebhookOutcomes.StandaloneOutcome` | app/application/use_cases/process_webhook.py:68-106 | A payment outside a subscription takes over the id and moves as the diagram says, paid at midnight of the day given |
| `WebhookOutcomes.StandaloneWithout` | app/application/use_cases/process_webhook.py:68-106 | About no payment it is only recorded, about several refused |
| `WebhookOutcomes.CheckoutOutcome` | app/application/use_cases/process_webhook.py:358-428 | A checkout that is PENDING or OVERDUE becomes PAID, CANCELED or EXPIRED by its event; any other event is only recorded |
| `WebhookOutcomes.CheckoutWithout` | app/application/use_cases/process_webhook.py:358-428 | About no payment it is only recorded, about several refused |
| `WebhookOutcomes.ReceivedOutcome` | app/application/use_cases/process_webhook.py:136-190 | The invoice's row, the provisional one or a new one is PAID, the subscription extended one period unless the date was its last, and the notice names both; or exactly when the charge is refused |
| `WebhookOutcomes.ConfirmedOutcome` | app/application/use_cases/process_webhook.py:192-245 | The same for CONFIRMED: the row stands if it was confirmed or paid, and only a card extends and tells a received payment |
| `WebhookOutcomes.InvoiceRefused` | app/application/use_cases/process_webhook.py:136-245 | A charge without a row is refused without an id, without a value, or under a reference already taken |
| `WebhookOutcomes.ChargeRefused` | app/application/use_cases/process_webhook.py:136-245 | A charge of an unknown subscription is refused |
| `WebhookOutcomes.WordOfEvent` | app/application/use_cases/process_webhook.py:85 | The word a webhook stands for is its own, or else its event's name without PAYMENT_ |
| `WebhookOutcomes.OldWebhook` | app/application/use_cases/process_webhook.py:45-50 | A webhook without an id is refused, one already processed does nothing |
| `WebhookOutcomes.OtherOutcomes` | app/application/use_cases/process_webhook.py:108-134 | Unknown events are only recorded, and events of a subscription that name none |
| `DeliveryLaws.RecordTellsOnce` | app/workers/tasks.py:51-133 | The delivery recorded goes to the link of its subscription or payment and tells what they are then: the expiry day, and the paid day exactly for a received payment; or the payment's reference, value, paid day and link. There is none without a link, or if the key is recorded |
| `CancellationOutcomes.StartOutcome` | app/application/use_cases/cancel_subscription.py:64-101 | The answers of a start, and the one commit: the end asked for, with reason, job and time, and the request opened unless it was |
| `CancellationOutcomes.VerifyOutcome` | app/application/use_cases/cancel_subscription.py:105-120 | Where each answer to the status question leads |
| `CancellationOutcomes.CallOutcomes` | app/application/use_cases/cancel_subscription.py:110-120 | What the cancel call did at the gateway, and the reference it leaves: the gateway's, or the subscription's own |
| `CancellationOutcomes.FinishOutcome` | app/application/use_cases/cancel_subscription.py:47-62 | A finish that lands ends the subscription now, for the reason and job of the request, and completes the operation, and nothing else; any other commits nothing and leads to its recovery |
| `CancellationOutcomes.RecoverOutcome` | app/application/use_cases/cancel_subscription.py:113-141 | The operation failed with its message, or set aside with the gateway's reference, and nothing else |
| `CancellationOutcomes.NotifyOutcome` | app/workers/tasks.py:544-559 | The worker tells the end once and does nothing else |
| `CheckoutOutcomes.StartOutcome` | app/application/use_cases/create_checkout.py:56-102 | The answers of a start for a payment that is open, ended or missing, and the one commit: a request that carries the whole order under the reference of its generation |
| `CheckoutOutcomes.CallOutcome` | app/application/use_cases/create_checkout.py:29-37 | Created, failed for certain, or of unknown outcome: what the job then holds |
| `CheckoutOutcomes.IssuingCommits` | app/application/use_cases/create_checkout.py:129-157 | The commit goes through exactly when nothing it needs is missing or taken |
| `CheckoutOutcomes.ConcludeOutcome` | app/application/use_cases/create_checkout.py:129-157 | A job that answers it issued has committed the gateway's id and link on the order's payment, PENDING at the order's gateway under the reference of its generation: a first issue as ordered, a renewal with every other field as read; the operation completed, and nothing else. It does whenever it may; otherwise nothing, and the request is to be set aside with the id |
| `CheckoutOutcomes.RecoverOutcome` | app/application/use_cases/create_checkout.py:163-192 | The request gets the status, reference and message decided, and nothing else changes |
| `SubscriptionOutcomes.StartOutcome` | app/application/use_cases/create_subscription.py:58-88 | The answers of a start, and the one commit: a request that carries the whole order |
| `SubscriptionOutcomes.CallOutcome` | app/application/use_cases/create_subscription.py:93-103 | The id is in hand for this reference, or the request is to be recorded as failed |
| `SubscriptionOutcomes.OneIsChosen` | app/application/use_cases/create_subscription.py:122-127 | Of any payments listed one is chosen: the first pending, or else the first |
| `SubscriptionOutcomes.BindingCommits` | app/application/use_cases/create_subscription.py:105-150 | The commit goes through exactly when order, id and chosen payment are complete and none of their keys is taken |
| `SubscriptionOutcomes.ConcludeOutcome` | app/application/use_cases/create_subscription.py:105-150 | A job that answers it created has committed the subscription that was ordered, PENDING under the gateway's id, and the chosen payment with its id, value, type and link; the operation completed, and nothing else. It does whenever it may; otherwise nothing, and the request is to be set aside with the id |
| `SubscriptionOutcomes.RecoverOutcome` | app/application/use_cases/create_subscription.py:160-182 | The request gets the status, reference and message decided, and nothing else changes |
| `ReconcileOutcomes.CreationOutcome` | app/workers/tasks.py:777-834 | A creation is completed with its id; a missing subscription is rebuilt as requested, CANCELED, ACTIVE or PENDING as the gateway reports; or exactly when nothing is committed |
| `ReconcileOutcomes.CancellationOutcome` | app/workers/tasks.py:836-859 | A confirmed cancellation ends the subscription now, completes the operation and tells the consumer once; any other changes nothing |
| `ReconcileOutcomes.CheckoutOutcome` | app/workers/tasks.py:860-945 | A checkout under its request's reference makes its payment, renews an ended one or moves a stored one to the status reported, tells it unless active, and completes the operation; or exactly when nothing is committed |
| `ReconcileOutcomes.PaymentOutcome` | app/application/use_cases/reconcile_payment.py:50-63 | An open payment moves as the diagram says and is written exactly when its status changes; nothing else ever changes |
| `ReconcileOutcomes.OnlyAwaiting` | app/workers/tasks.py:757-777 | Only an operation that awaits reconciliation is touched, by the branch of its own kind |
| `CancellationLaws.ReachableStatesAgree` | app/application/use_cases/cancel_subscription.py:47-141 | In every state any run reaches, with a crash at any await: operation COMPLETED implies subscription CANCELED implies canceled at the gateway; REQUIRES_RECONCILIATION implies canceled at the gateway; at most one SUBSCRIPTION_INACTIVATED row for a subscription, which tells its expiry at its link; a worker that ran to completion has left one if there is a link |
| `CancellationLaws.CancelCalledAtMostOnce` | app/application/use_cases/cancel_subscription.py:105-116 | Over any run, at most one cancel call takes effect for a subscription, and none if this service had canceled it before |
| `CancellationLaws.NeverCalledAgain` | app/application/use_cases/cancel_subscription.py:105-110 | Over any run, no cancel call, with effect or without, is issued on a subscription that this service has canceled before |
| `CancellationLaws.RunIsSafe` | app/application/use_cases/cancel_subscription.py:64-141 | The invariant behind both, kept by every run of jobs, crashes, webhooks, reconciliation and cancellations made elsewhere |
| `CancellationLaws.StepKeeps` | app/application/use_cases/cancel_subscription.py:64-141 | The same for one step of any kind |
| `CancellationLaws.CompletedMeansEnded` | app/application/use_cases/cancel_subscription.py:74-75 | The branch on an operation already COMPLETED is never reached with a subscription that is not CANCELED |
| `CancellationLaws.StartKeeps` | app/application/use_cases/cancel_subscription.py:64-103 | A start commits the request and an open operation together, or nothing, and keeps the invariant |
| `CancellationLaws.CallKeeps` | app/application/use_cases/cancel_subscription.py:107-116 | The cancel call, with effect or without, is made only when no earlier call took effect, and keeps the invariant |
| `CancellationLaws.FinishKeeps` | app/application/use_cases/cancel_subscription.py:47-62 | Finishing ends the subscription and completes the operation in one commit, or commits nothing, and keeps the invariant |
| `CancellationLaws.RecoverKeeps` | app/application/use_cases/cancel_subscription.py:111-141 | Recovery after a failed call or a failed last commit keeps the invariant |
| `CancellationLaws.NotifyKeeps` | app/workers/tasks.py:544-559 | The worker's delivery is recorded under the key the webhook would use, once |
| `CancellationLaws.ForeignKeeps` | app/workers/tasks.py:836-859 | Webhooks, deliveries, reconciliation and other operations leave every job's hold and every safety fact intact |
| `CancellationLaws.ForeignEnds` | app/application/use_cases/process_webhook.py:260-277 | Another commit ends a subscription only if it is canceled at the gateway |
| `CancellationLaws.DeliveryAdded` | app/workers/tasks.py:115-133 | A commit adds at most one delivery, and an inactivation delivery only for a subscription then CANCELED or a notice owed |
| `CancellationLaws.QuietStoreIsSafe` | app/application/use_cases/cancel_subscription.py:64-70 | A store without operations, deliveries and ended subscriptions satisfies the invariant |
| `CancellationService.CancelSubscription.Execute` | app/application/use_cases/cancel_subscription.py:64-141 | The method itself takes only steps the protocol allows, starting with its start, up to the answer it returns; when nothing fails, the start answers or the subscription is canceled |
| `CancellationService.CancelSubscription.Begin` | app/application/use_cases/cancel_subscription.py:64-103 | Answers at once, or has committed request and operation and holds the operation |
| `CancellationService.CancelSubscription.Finalize` | app/application/use_cases/cancel_subscription.py:47-62 | One transaction: subscription and operation, or an exception that says how far the operation in memory had got |
| `CancellationService.CancelSubscription.RecordFailure` | app/application/use_cases/cancel_subscription.py:111-116 | The stored operation says FAILED with the reference held in memory and the message, unless the commit or the job failed |
| `CancellationService.CancelSubscription.RecordSetAside` | app/application/use_cases/cancel_subscription.py:132-141 | The stored operation says REQUIRES_RECONCILIATION with the gateway's reference and the message, unless the commit or the job failed |
| `CancellationService.CancelSubscription.Work` | app/workers/tasks.py:542-559 | When the worker succeeds, the end and the expiry day have been told at the subscription's link, or there is none; when nothing fails, it succeeds unless the start refused |
| `CheckoutLaws.IssuedAtMostOnce` | app/application/use_cases/create_checkout.py:56-192 | Over any run in which outcomes are recorded, the create calls that succeeded or were uncertain are at most 1 plus the entries into EXPIRED or CANCELED, the one before the run included |
| `CheckoutLaws.IssuedAtMostOncePerGeneration` | app/application/use_cases/create_checkout.py:56-192 | The same without that assumption, plus one for every outcome that was never recorded |
| `CheckoutLaws.LostExactlyOnRetry` | app/application/use_cases/create_checkout.py:86-108 | In every reachable state, an outcome is lost exactly when a job that called ends unrecorded on an operation that was already FAILED |
| `CheckoutLaws.IssuedTwiceExactly` | app/application/use_cases/create_checkout.py:86-108 | Over any run, a generation is issued twice if and only if its outcome was lost and it was called for again later |
| `CheckoutLaws.RetryMayIssueTwice` | app/application/use_cases/create_checkout.py:88-108 | A run in which such a loss issues one generation twice |
| `CheckoutLaws.StepCounts` | app/application/use_cases/create_checkout.py:56-192 | Each generation's call is accounted for, and blocked from then on, by every step |
| `CheckoutLaws.StaysBlocked` | app/application/use_cases/create_checkout.py:79-89 | A generation whose call is accounted for stays refused by every later start, unless its outcome is lost |
| `CheckoutLaws.MarkersAreEntries` | app/domain/entities/payment.py:136-217 | In a step of any kind, a new renewal marker is an entry: the payment was absent or in another status, or a reconciliation renewed it before it ended again |
| `CheckoutLaws.RunCovers` | app/application/use_cases/create_checkout.py:68-78 | Over any run there are as many entries as markers |
| `CheckoutLaws.NothingIsLost` | app/application/use_cases/create_checkout.py:163-192 | Runs without crashes and with committed recoveries lose no outcome |
| `CheckoutService.CreateCheckout.Execute` | app/application/use_cases/create_checkout.py:51-192 | The method itself takes only steps the protocol allows, up to the answer it returns; when it answers issued, the payment carries the id and link of the checkout that its own call created; when nothing fails, the start answers, or the checkout is issued or its request set aside |
| `CheckoutService.CreateCheckout.Begin` | app/application/use_cases/create_checkout.py:56-102 | Existing payment, the four refusals, a retry that writes nothing, or a new PENDING operation committed |
| `CheckoutService.CreateCheckout.Write` | app/application/use_cases/create_checkout.py:129-157 | Payment and operation in one commit, or neither: a first issue as ordered, a renewal with the new id, link and reference and all else as read; it fails only with the commit, or when the keys are taken |
| `CheckoutService.CreateCheckout.RecordOutcome` | app/application/use_cases/create_checkout.py:163-192 | The recovery commits FAILED or REQUIRES_RECONCILIATION |
| `SubscriptionLaws.NoOrphan` | app/application/use_cases/create_subscription.py:58-182 | In any state of any run, an id the gateway returned and no job dropped is in its job's hand and nowhere on record, or exactly one of its reference's own committed row or own creation operation in REQUIRES_RECONCILIATION; once the job is over it is the latter; and the reference has no other such id |
| `SubscriptionLaws.RunIsSound` | app/application/use_cases/create_subscription.py:58-182 | In every state of every run each id is in exactly one place: row, awaiting operation, a job's hand, dropped |
| `SubscriptionLaws.ForeignPlaces` | app/workers/tasks.py:777-834 | Reconciliation only moves an id from an awaiting operation to a row |
| `SubscriptionLaws.NothingIsDropped` | app/application/use_cases/create_subscription.py:160-182 | Runs without crashes and with committed recoveries drop no id |
| `SubscriptionLaws.NothingIsLive` | app/application/use_cases/create_subscription.py:58-76 | A start that goes ahead finds every earlier id of its reference dropped |
| `SubscriptionLaws.ConcludeKeeps` | app/application/use_cases/create_subscription.py:105-150 | The binding commit adds one row, with the id in hand, and completes the operation, or nothing is committed and the id stays in hand |
| `SubscriptionLaws.RecoverKeeps` | app/application/use_cases/create_subscription.py:160-182 | The recovery commit records the id in hand as the awaiting operation's reference, or FAILED when there is none |
| `SubscriptionService.CreateSubscription.Execute` | app/application/use_cases/create_subscription.py:51-182 | The method itself takes only steps the protocol allows, up to the answer it returns; when it answers created, the last rows are the subscription ordered, under the id its own call created, and its first payment; when nothing fails, the start answers, or it is created or its request recorded |
| `SubscriptionService.CreateSubscription.Begin` | app/application/use_cases/create_subscription.py:58-88 | Existing subscription, the refusals, a retry of a failure without reference, or a new operation committed |
| `SubscriptionService.CreateSubscription.Write` | app/application/use_cases/create_subscription.py:105-150 | The subscription ordered, the chosen payment and the completed operation in one commit, or nothing; it fails only with the commit, the listing, or when binding is not allowed |
| `ReconcileService.ReconcileWorker.ReconcileAll` | app/workers/tasks.py:742-953 | Over any list, with anything committed between iterations: each iteration completes its operation or leaves everything as it found it, and moves no other operation; what it completes has its effect in the same commit, a checkout under its own id included, exactly when a recovered checkout can be bound; unless commits fail, every operation that awaits and is answered is reconciled |
| `ReconcileService.QuietLoop` | app/workers/tasks.py:742-953 | When nothing else commits meanwhile: listed operations end completed or as they were, unlisted ones untouched |
| `ReconcileService.AllOrNothing` | app/workers/tasks.py:777-945 | A reconciliation changes nothing, or completes its operation. The payment then carries the recovered checkout if and only if there was no payment, or it was EXPIRED or CANCELED under another reference, or it carried that checkout already; a settled checkout has its status on the payment in any case |
| `ReconcileService.RecoveredCheckoutLost` | app/workers/tasks.py:886-945 | A run in which the operation is completed and no payment carries the recovered checkout: an OVERDUE moved the payment while its renewal waited |
| `ReconcileService.ReconcileWorker.ReconcileOne` | app/workers/tasks.py:757-953 | One iteration is one transaction, or leaves everything; unless commits fail, it is the transaction that the gateway's report stands for |
| `ReconcileService.ReconcileWorker.ReconcileCreation` | app/workers/tasks.py:777-834 | Finds or rebuilds the subscription and completes the operation |
| `ReconcileService.ReconcileWorker.ReconcileCancellation` | app/workers/tasks.py:836-859 | Ends the subscription, completes the operation and records the notice, only if the gateway says canceled |
| `ReconcileService.ReconcileWorker.ReconcileCheckout` | app/workers/tasks.py:860-945 | Makes, renews or moves the payment, notifies and completes, or refuses a divergent checkout |
| `ReconcileService.ReconcilePaymentService.Execute` | app/application/use_cases/reconcile_payment.py:50-63 | Applies the gateway's status to an open payment and commits exactly when the status changed |
| `RunLaws.RunKeeps` | app/domain/entities/payment.py:136-217 | Over every run in which no renewal lands on a settled payment: PAID moves only to REFUNDED, REFUNDED never moves, paid date and net value are frozen from PAID on |
| `RunLaws.RunKeepsRows` | app/domain/entities/subscription.py:96-152 | Over every run, stale renewals included: expiry never moves back, an ended subscription is frozen, deliveries stay, unique keys hold, paid statuses have a date |
| `TransactionLaws.TransactionKeeps` | app/domain/entities/subscription.py:96-152 | Both for one commit, and that a new expiry lies strictly beyond the old one and the payment date |
| `RunLaws.StaleRenewal` | app/application/use_cases/create_checkout.py:130-157 | A renewal, of a row read at any time, undoes a settlement exactly when the stored row is settled |
| `RunLaws.SettlementTakenBack` | app/application/use_cases/create_checkout.py:130-157 | A run in which it does: overdue and paid while the renewal waits, then PENDING |
| `TransactionLaws.TransactionKeepsRows` | app/application/use_cases/create_checkout.py:130-157 | What one commit keeps, stale renewals included |
| `RunLaws.NoticeBuilds` | app/workers/tasks.py:51-88 | The delivery of a committed webhook builds from its own store without the missing-id and missing-date errors |
| `NoticeLaws.NoticeStillBuilds` | app/workers/tasks.py:237-250 | It still does after any run of other commits whose renewals have seen the paid dates they rewrite |
| `NoticeLaws.PaidDateStaysExactly` | app/domain/entities/payment.py:136-217 | A commit takes a paid date away exactly when it is a renewal of a reading without it |
| `PaymentRowLaws.TransactionMoves` | app/domain/entities/payment.py:136-217 | No commit but a renewal or a reconciled checkout moves the marker of a payment that stays EXPIRED or CANCELED, or takes its paid date away |
| `PaymentRowLaws.ReconciledCheckoutMoves` | app/workers/tasks.py:886-945 | Nor does a reconciled checkout, but for the marker of a payment it renews |
| `TransactionLaws.WebhookKeeps` | app/application/use_cases/process_webhook.py:45-279 | The same keeping, for the webhook handler and every branch of it |
| `TransactionLaws.ReceivedKeeps` | app/application/use_cases/process_webhook.py:136-190 | For PAYMENT_RECEIVED |
| `TransactionLaws.ConfirmedKeeps` | app/application/use_cases/process_webhook.py:192-245 | For PAYMENT_CONFIRMED |
| `TransactionLaws.CheckoutKeeps` | app/application/use_cases/process_webhook.py:358-428 | For checkout events |
| `TransactionLaws.ReconcileCheckoutKeeps` | app/workers/tasks.py:860-945 | For the reconciliation of a checkout |
| `TransactionLaws.ReconcilePaymentKeeps` | app/application/use_cases/reconcile_payment.py:50-63 | For the reconciliation of a payment |
| `TransactionLaws.BindSubscriptionKeeps` | app/application/use_cases/create_subscription.py:105-150 | For the commit of a created subscription |
| `OperationLaws.OperationsKept` | app/infra/repo/gateway_operation_repo.py:28-55 | No commit rewrites a request or touches another's operation |
| `OperationLaws.ReconciledOrAwaiting` | app/workers/tasks.py:757-953 | A reconciled operation is completed or left awaiting |
| `OperationLaws.WebhookEnds` | app/application/use_cases/process_webhook.py:260-277 | A webhook ends a subscription only by naming it in an inactivation event |
| `WebhookFootprint.CommitFootprint` | app/application/use_cases/process_webhook.py:45-279 | A webhook commits only under an id not yet processed, records it, and touches no operation and no delivery |
| `WebhookService.ProcessWebhookService.Execute` | app/application/use_cases/process_webhook.py:45-279 | One delivery commits what the rule says and answers with its notice, or raises and commits nothing |
| `WebhookService.ProcessWebhookService.ProcessStandalone` | app/application/use_cases/process_webhook.py:68-106 | Payments outside a subscription, found by id or by reference |
| `WebhookService.ProcessWebhookService.ProcessReceived` | app/application/use_cases/process_webhook.py:136-190 | PAYMENT_RECEIVED of a subscription |
| `WebhookService.ProcessWebhookService.ProcessConfirmed` | app/application/use_cases/process_webhook.py:192-245 | PAYMENT_CONFIRMED of a subscription |
| `WebhookService.ProcessWebhookService.ProcessDeleted` | app/application/use_cases/process_webhook.py:247-258 | PAYMENT_DELETED of a subscription |
| `WebhookService.ProcessWebhookService.ProcessInactivated` | app/application/use_cases/process_webhook.py:260-277 | SUBSCRIPTION_DELETED and SUBSCRIPTION_INACTIVATED |
| `WebhookService.ProcessWebhookService.FindSubscriptionPayment` | app/application/use_cases/process_webhook.py:281-297 | The invoice's row, or the pending provisional row it takes over |
| `WebhookService.ProcessWebhookService.ProcessLifecycle` | app/application/use_cases/process_webhook.py:299-356 | Overdue, refund and chargeback |
| `WebhookService.ProcessWebhookService.ProcessCheckout` | app/application/use_cases/process_webhook.py:358-428 | Checkout events |
| `WebhookService.ProcessWebhookService.MarkEventProcessed` | app/application/use_cases/process_webhook.py:430-433 | Marks the event and commits |
| `DuplicateLaws.DuplicatesErase` | app/application/use_cases/process_webhook.py:45-58 | Any sequence of arrivals leaves what its first committing occurrences alone leave: rows, events and deliveries, whichever deliveries were recorded |
| `DuplicateLaws.FirstCommitsAreDistinct` | app/infra/db/models/webhook_event.py:21 | Those are one per event id |
| `DuplicateLaws.RepeatCanBeRemoved` | app/application/use_cases/process_webhook.py:49-50 | A repeat of a committed event can be taken out wherever it stands |
| `DuplicateLaws.CommitRecordsItsEvent` | app/application/use_cases/process_webhook.py:430-433 | A commit adds its event id and no other; a failed delivery changes nothing |
| `WebhookService.OneOfTwoCommits` | app/infra/db/models/webhook_event.py:21 | Of two sessions that read one state without the event, one at most commits it |
| `EventIds.EventIdsAreInjective` | app/application/dtos/request/webhook.py:73-79 | Equal ids mean equal gateway, event, source and subscription, when subscription ids hold no colon and are not the placeholder |
| `EventIds.EventIdsRead` | app/application/dtos/request/webhook.py:73-79 | The parts of an id in their order, the payment standing in for the source and the placeholder for the subscription |
| `EventIds.AmbiguousEventIds` | app/application/dtos/request/webhook.py:78-79 | Both conditions are needed |
| `ReorderLaws.ReorderingIsHarmless` | app/application/use_cases/process_webhook.py:136-245 | CONFIRMED and RECEIVED of one charge commit the same payment (up to its update time), subscription and events in either order |
| `ReorderLaws.ChargeExtendsOnce` | app/application/use_cases/process_webhook.py:175-177 | With nothing committed between them, the two webhooks of a card charge extend the expiry by one period if their date is new, and not at all if it is not, in either order |
| `ReorderLaws.CommitExtendsExactly` | app/application/use_cases/process_webhook.py:175-177 | A card charge's commit extends the expiry by one period exactly when its date is not the last one and it is not a RECEIVED of a payment already paid |
| `ReorderLaws.TwoDatesExtendTwice` | app/application/use_cases/process_webhook.py:227-229 | The two webhooks of one card invoice, with whatever dates, in either order and with nothing committed between: each extends by one period exactly when its date is not the one before |
| `ExtensionLaws.SecondExtendsExactly` | app/application/use_cases/process_webhook.py:175-177 | With any run of commits between them: the second extends, by one period, exactly when the last extension since the first, or else the first, has another date, and it is not the RECEIVED of a payment already paid |
| `ExtensionLaws.LastDateIsLastExtensions` | app/domain/entities/subscription.py:96-106 | Over any run the last paid date is that of the last extension |
| `ExtensionLaws.OneChargeExtendsTwice` | app/application/use_cases/process_webhook.py:175-177 | A charge whose two webhooks carry two dates extends twice |
| `ExtensionLaws.OneDateExtendsTwice` | app/application/use_cases/process_webhook.py:175-177 | A charge whose two webhooks carry one date extends twice, with another charge between them |
| `ReorderLaws.ChargeNotifiesOnce` | app/workers/tasks.py:80-88 | In either order a card charge leaves one PAYMENT_RECEIVED delivery |
| `ReorderLaws.PairsCommute` | app/domain/entities/subscription.py:96-106 | The two rules on payment and subscription commute, including which of them refuse |
| `ReorderLaws.OneWebhook` | app/application/use_cases/process_webhook.py:136-245 | A charge's webhook is the rule applied in its place, or nothing |
| `InvoiceLaws.InvoiceRowsAreConserved` | app/application/use_cases/process_webhook.py:136-215 | After any run of charges a subscription's rows are in bijection with the invoice ids committed for it, the provisional row being the first's |
| `InvoiceLaws.RowsMatchInvoices` | app/application/use_cases/process_webhook.py:281-297 | The balance of rows and invoices, kept by every run |
| `FenceLaws.FenceStands` | app/application/use_cases/create_checkout.py:68-78 | Over any run of checkout events and renewals no generation shares id or reference with an older one, and a PAID generation is the last |
| `FenceLaws.LateEventChangesNothing` | app/application/use_cases/process_webhook.py:358-428 | An event that carries an older generation's id or reference, or both, and nothing of the current one leaves the renewed payment as it is |
| `FenceLaws.FirstEndingEventEnds` | app/application/use_cases/process_webhook.py:358-428 | A PAID, CANCELED or EXPIRED event ends a live checkout exactly when it is for it, by id or by reference, and its net value is not negative |
| `FenceLaws.EventTouches` | app/application/use_cases/process_webhook.py:358-428 | An event moves a payment only if it carries its id or reference and its checkout is live |
| `WebhookLock.OneInside` | app/workers/tasks.py:199-219 | At most one job is inside, the lock is its id from entry until its last try ends, and whoever deletes the lock deletes its own |
| `WebhookLock.RunKeepsLock` | app/workers/tasks.py:195-302 | The invariant, over every interleaving of jobs and tries |
| `WebhookLock.RetryReenters` | app/workers/tasks.py:207-211 | A failed try that is not the last gets in again, and others end as duplicates meanwhile |
| `WebhookLock.DeletesAnothersExactly` | app/workers/tasks.py:281-302 | In a run where no lock was yet taken away, a deletion takes another job's lock exactly when the lock is held and the job deleting it never took it, and then a Redis call of that job before entry has failed in its last try |
| `WebhookLock.ReleasesUnheldExactly` | app/workers/tasks.py:281-302 | A job comes to release a lock it never took exactly by such a failed call |
| `WebhookLock.AnothersLockDeleted` | app/workers/tasks.py:281-302 | A run in which it does |
| `WebhookWorker.Worker.Try` | app/workers/tasks.py:195-302 | One try of the job: it takes only the lock protocol's steps, and leaves the commit and its delivery with other events' commits between the two, those commits without the delivery, or nothing; a success has told the webhook's notice once, of the rows as they then are; unless commits fail or another session has the event, it does not end in a retry |
| `WebhookWorker.Worker.Section` | app/workers/tasks.py:222-250 | Demands that the job is alone inside and holds the lock; the webhook's commit, other events' commits, and then one delivery that tells its notice at the right link, with the expiry and dates the rows then have |
| `WebhookWorker.Worker.Tell` | app/workers/tasks.py:115-133 | Records one delivery that tells the notice, unless nobody listens or its key is recorded |
| `WebhookWorker.Worker.Acquire` | app/workers/tasks.py:200-219 | SET NX, then GET by the same job |
| `WebhookWorker.Worker.Finish` | app/workers/tasks.py:258-302 | The lock is deleted only when no try can follow |
| `Idempotency.OneJob` | app/web/dependencies/idempotency.py:20-83 | At most one job is enqueued, every accepted answer carries its id, and requests with different bodies are not both accepted |
| `Idempotency.ExactlyOneJob` | app/web/routes/payments.py:52-94 | Exactly one, once all requests are answered and none died |
| `Idempotency.SecondAnswers` | app/web/dependencies/idempotency.py:38-65 | A request that came second is refused as another body, refused as under way, or told the one job enqueued, exactly by the record it reads, whichever step the first has reached |
| `Idempotency.FirstRecords` | app/web/dependencies/idempotency.py:20-83 | The first records its body before it enqueues and its job after |
| `Idempotency.StepKeeps` | app/web/dependencies/idempotency.py:20-83 | The invariant, by every step; the recorded body never changes |
| `IdempotencyRoute.Route.Create` | app/web/routes/payments.py:52-94 | The route's answer is the id of the one job enqueued, a conflict exactly when the body recorded is another, or the conflict of a job still under way exactly when none is recorded |
| `IdempotencyRoute.Route.StartJob` | app/web/dependencies/idempotency.py:20-65 | NX, GET, and the two conflicts |
| `BillingCalendar.IteratedBilling` | app/domain/entities/subscription.py:13-29 | n renewals land in the month of one long jump, on the start day cut to the shortest month visited |
| `BillingCalendar.SmallStepsNeverLater` | app/domain/entities/subscription.py:13-29 | Small steps never end later than one jump, and when exactly they end on the same day |
| `BillingCalendar.YearOfRenewals` | app/domain/entities/subscription.py:18-23 | Twelve monthly or two semiannual renewals against one yearly, equal up to day 28 |
| `BillingCalendar.ShortestIsMinimum` | app/domain/entities/subscription.py:28 | The closed form's minimum is one |
| `BillingCalendar.PeriodLength` | app/domain/entities/subscription.py:13-29 | An extension adds 28 to 31, 181 to 184, 365 or 366 days |
| `BillingCalendar.ExtensionIsLater` | app/domain/entities/subscription.py:13-29 | It is strictly later, and the result is a date |
| `BillingCalendar.LatestThenExtended` | app/domain/entities/subscription.py:101-105 | From the later of payment and expiry it is beyond both |
| `BillingCalendar.ExtensionOrderOnInstants` | app/domain/entities/subscription.py:13-29 | Two instants are reversed exactly when they are on different days of one month, both days are past the end of the month of arrival or at it, and the earlier has the later time |
| `BillingCalendar.ExtensionCanReverseInstants` | app/domain/entities/subscription.py:28-29 | Two instants that do not |
| `BillingCalendar.ExtensionMonotoneOnDates` | app/domain/entities/subscription.py:13-29 | Dates keep their order |
| `BillingCalendar.DayNumberCountsDays` | app/domain/entities/subscription.py:13-29 | Day numbers are those of the calendar: the next day has the next number |
| `BillingCalendar.LaterDateHasLargerNumber` | app/domain/entities/subscription.py:13-29 | And later dates have larger ones |
| `Documents.CpfAccepted` | app/domain/value_objects/cpf.py:24-49 | A text is accepted exactly when its digits are eleven, two of them differ, and the last two complete their weighted totals to a multiple of 11, or are 0 where that takes 10 or 11 |
| `Documents.CnpjAccepted` | app/domain/value_objects/cnpj.py:24-49 | The same for fourteen digits and the weights 2 to 9 from the right, beginning again |
| `Documents.SeparatorsStand` | app/domain/value_objects/cpf.py:51-56 | Where the separators of a formatted number stand |
| `Documents.NormalizeReadsEach` | app/domain/value_objects/cpf.py:24-25 | Each character of a text is kept or dropped by itself |
| `Documents.CpfMissedErrors` | app/domain/value_objects/cpf.py:27-49 | Two accepted numbers one digit apart differ at index 0 by 1 or at index 5 by 2 or 9 |
| `Documents.CnpjMissedErrors` | app/domain/value_objects/cnpj.py:27-49 | Two accepted numbers one digit apart differ at index 0 or 8 by 2 or 9, or at index 4 by 5 or 6 |
| `Documents.CpfMissedAtIndex0` | app/domain/value_objects/cpf.py:27-49 | An accepted pair that differs at index 0 |
| `Documents.CpfMissedAtIndex5By2` | app/domain/value_objects/cpf.py:27-49 | An accepted pair that differs at index 5 by 2 |
| `Documents.CpfMissedAtIndex5By9` | app/domain/value_objects/cpf.py:27-49 | An accepted pair that differs at index 5 by 9 |
| `Documents.CnpjMissedAtIndex0By2` | app/domain/value_objects/cnpj.py:27-49 | An accepted pair that differs at index 0 by 2 |
| `Documents.CnpjMissedAtIndex0By9` | app/domain/value_objects/cnpj.py:27-49 | An accepted pair that differs at index 0 by 9 |
| `Documents.CnpjMissedAtIndex4By5` | app/domain/value_objects/cnpj.py:27-49 | An accepted pair that differs at index 4 by 5 |
| `Documents.CnpjMissedAtIndex4By6` | app/domain/value_objects/cnpj.py:27-49 | An accepted pair that differs at index 4 by 6 |
| `Documents.CnpjMissedAtIndex8By2` | app/domain/value_objects/cnpj.py:27-49 | An accepted pair that differs at index 8 by 2 |
| `Documents.CnpjMissedAtIndex8By9` | app/domain/value_objects/cnpj.py:27-49 | An accepted pair that differs at index 8 by 9 |
| `Documents.DigitRulesAgree` | app/domain/value_objects/cnpj.py:36-39 | The two files' digit formulas agree on every total |
| `Documents.SumDifference` | app/domain/value_objects/cpf.py:37-45 | What one wrong digit does to a weighted sum |
| `Documents.CpfRoundTrip` | app/domain/value_objects/cpf.py:24-56 | Normalising a formatted number gives it back, and it is accepted again |
| `Documents.CnpjRoundTrip` | app/domain/value_objects/cnpj.py:24-59 | Normalising a formatted number gives it back, and it is accepted again |
| `EntityObjects.Payment.MarkAsCanceled` | app/domain/entities/payment.py:136-141 | Moves PENDING, OVERDUE or CONFIRMED to CANCELED with its dates, or refuses and changes nothing |
| `EntityObjects.Payment.MarkAsConfirmed` | app/domain/entities/payment.py:143-156 | Confirms once; a negative net value is refused |
| `EntityObjects.Payment.MarkAsOverdue` | app/domain/entities/payment.py:158-166 | Refused once settled, canceled or failed |
| `EntityObjects.Payment.MarkAsExpired` | app/domain/entities/payment.py:168-172 | From PENDING or OVERDUE only |
| `EntityObjects.Payment.MarkAsPaid` | app/domain/entities/payment.py:174-187 | Pays once; date and net value as given |
| `EntityObjects.Payment.MarkAsRefunded` | app/domain/entities/payment.py:189-195 | From PAID or CONFIRMED only |
| `EntityObjects.Payment.RenewCheckout` | app/domain/entities/payment.py:205-217 | From EXPIRED or CANCELED only: the new id, link and reference, PENDING, and every other field as it was |
| `EntityObjects.Payment.ApplyGatewayStatus` | app/application/use_cases/reconcile_payment.py:12-41 | The rule for each status word, and whether the status changed |
| `EntityObjects.Subscription.MarkAsPaid` | app/domain/entities/subscription.py:96-106 | Extends by one period from the later of payment and expiry and reactivates; refused once ended |
| `EntityObjects.Subscription.RequestCancellation` | app/domain/entities/subscription.py:119-132 | Asks once; refused once ended |
| `EntityObjects.Subscription.Cancel` | app/domain/entities/subscription.py:134-152 | Ends once, filling reason, job and request time |
| `EntityObjects.GatewayOperation.MarkCompleted` | app/domain/entities/gateway_operation.py:46-54 | Needs a reference; clears the error |
| `EntityObjects.GatewayOperation.MarkFailed` | app/domain/entities/gateway_operation.py:56-59 | Keeps the reference |
| `EntityObjects.GatewayOperation.MarkRequiresReconciliation` | app/domain/entities/gateway_operation.py:61-66 | Overwrites the reference |
| `Storage.UnitOfWork.SavePayment` | app/infra/repo/payment_repo.py:82-138 | Inserts or updates a payment and keeps the unique keys; refused exactly when a key is taken or the provider id is empty |
| `Storage.UnitOfWork.SaveSubscription` | app/infra/repo/subscription_repo.py:68-120 | Inserts or updates a subscription and keeps the unique keys; refused exactly when a key is taken |
| `Storage.UnitOfWork.SaveOperation` | app/infra/repo/gateway_operation_repo.py:28-55 | Updates status, reference and error; the stored payload is never rewritten |
| `Storage.FindByReference` | app/infra/repo/payment_repo.py:45-49 | The only row with the reference, none has it, or two have it, which is an error |
| `Storage.FindPaymentBySystemRef` | app/infra/repo/payment_repo.py:36-43 | A row with both parts of the reference, or none has them |

## Left out

- RunKeeps: claims nothing of settlement once a renewal lands on a settled payment; there it is false of the code, as `RunLaws.StaleRenewal` and `RunLaws.SettlementTakenBack` show.
- ReachableStatesAgree: assumes at most one cancel job at a time for a subscription, and webhooks and status answers that tell the truth about cancellations.
- IssuedAtMostOnce: assumes that a definite failure created nothing, that the gateway names what it creates, and that jobs for one payment reference run one after another.
- NoOrphan: assumes that a create call that raised created nothing (the source assumes it at `app/application/use_cases/create_subscription.py:74-75`), which leaves out timeouts and errors raised after the remote subscription exists.
- Commits that land and are reported as failed, in the three gateway protocols: a commit there lands and is known to, or does not land.
- OneInside: leaves out a lock that outlives its TTL, and metadata writes to Redis.
- OneJob: leaves out the expiry of a key and `clear_idempotent_job` after a failed enqueue.
- Create: does not model a failed enqueue, nor the clearing of the key after it.
- ReconcileCreation: leaves out the loop that mirrors remote payments; it waits for an exception the repository never raises.
- ReconcilePaymentKeeps: `ReconcilePayment` and the inactivation webhook read their row without a lock (`app/application/use_cases/reconcile_payment.py:51`, `app/application/use_cases/process_webhook.py:264`); each is taken as one transaction.
- OneOfTwoCommits: two sessions at once are modelled for the event's unique key only; elsewhere transactions are taken one after another, as the row locks and unique keys make them.
- Row locks themselves, isolation levels and the identity map of the session: a locking read is taken to return the committed row.
- `sync_pending_checkouts_worker`, which applies transitions to objects read in an earlier session.
- Delivery of internal webhooks over HTTP and `SendSubInternalWebhook`; that a delivery is recorded after a crash between the two commits is not promised by the code either.
- HTTP clients, routes beyond the idempotent create, validation, the ORM mapping, signatures, configuration, metrics, job metadata and dead letters.
- Several clock readings inside one handler: a handler reads the clock once.
- UTC offsets (one timeline), years beyond 9999, trial periods, descriptions, due dates, `created_at`, failed payments (`mark_as_failed` has no caller).
- Whitespace stripping and case folding of texts and status words, which arrive normalised; non-ASCII digits accepted by `str.isdigit`.
- External references and dedupe keys as strings: they are records of their parts.
- The refresh of a stored request payload on a retry, which the repository does not write.
- Customers, and the response built for an existing subscription.
