/** What each reconciliation commits and whom it notifies, told from the stored
    request, the gateway's report and the rows before. */
module ReconcileOutcomes {
  import opened BillingCalendar
  import opened Entities
  import opened RowMeanings
  import opened Storage
  import opened WebhookRules
  import opened Transactions
  import opened TransactionLaws
  import opened RunLaws
  import opened DeliveryLaws
  import opened WebhookOutcomes

  /** Operation `o` completed with a reference, beside whatever else changed. */
  predicate Completes(s: Store, t: Store, o: nat, reference: string)
    requires o < |s.operations|
  {
    && |t.operations| == |s.operations| && CompletedWith(s.operations[o], t.operations[o], reference)
    && t.operations == s.operations[o := t.operations[o]]
  }

  // ---------------------------------------------------------------- creations

  /** The subscription as it was requested, under the gateway's id: ended, active or
      unpaid as the gateway reports it. */
  predicate RebuiltAs(row: SubscriptionRow, op: OperationRow, remote: RemoteSubscription)
    requires op.payload.SubscriptionPayload?
  {
    && row.fromSystem == op.key.system && row.systemSubscriptionId == op.payload.systemSubscriptionId
    && row.gateway == op.provider && row.gatewaySubscriptionId == op.gatewayReference
    && row.subscriptionType == op.payload.subscriptionType && row.value == op.payload.value
    && row.expiresAt == op.payload.expiresAt && row.webhookLink == op.payload.webhookLink
    && (remote == RemoteCanceled ==> row.status == Ended) && (remote == RemoteActive ==> row.status == Active)
    && (remote == RemoteOther ==> row.status == Unpaid)
    && row.lastPaidDate == None && row.cancellationRequestedAt == None && row.cancelledAt == None
    && row.cancellationReason == "" && row.cancellationJobId == ""
  }

  predicate HasSystemRef(s: Store, id: string, system: System) {
    exists k :: 0 <= k < |s.subscriptions| && s.subscriptions[k].systemSubscriptionId == id
                && s.subscriptions[k].fromSystem == system
  }

  /** A creation is completed with the id it awaited; without a row for that id, the
      row is rebuilt in the same commit, or nothing is committed. */
  lemma CreationOutcome(s: Store, o: nat, remote: RemoteSubscription)
    requires o < |s.operations| && s.operations[o].status == RequiresReconciliation
    requires s.operations[o].payload.SubscriptionPayload?
    ensures var op, t := s.operations[o], Apply(s, Transaction.ReconcileCreation(o, remote));
            var r, n := op.payload, |s.subscriptions|;
            if op.gatewayReference != "" && Knows(s, op.gatewayReference) then
              t == s.(operations := t.operations) && Completes(s, t, o, op.gatewayReference)
            else if op.gatewayReference != "" && r.systemSubscriptionId != "" && r.value >= 0
                    && !HasSystemRef(s, r.systemSubscriptionId, op.key.system) then
              && |t.subscriptions| == n + 1 && RebuiltAs(t.subscriptions[n], op, remote)
              && Completes(s, t, o, op.gatewayReference)
              && t == s.(subscriptions := s.subscriptions + [t.subscriptions[n]], operations := t.operations)
            else t == s
  {
    OperationRulesMean(s.operations[o], s.operations[o].gatewayReference, "");
  }

  // ---------------------------------------------------------------- cancellations

  /** A cancellation that the gateway confirms ends the subscription now, completes
      the operation and tells the consumer once, in one commit; one that it does not
      confirm changes nothing. */
  lemma CancellationOutcome(s: Store, o: nat, remote: RemoteSubscription, now: DateTime)
    requires Good(s) && o < |s.operations| && s.operations[o].status == RequiresReconciliation
    requires s.operations[o].payload.CancelPayload?
    ensures var op, t := s.operations[o], Apply(s, Transaction.ReconcileCancellation(o, remote, now));
            var k := op.payload.subscription;
            if k < |s.subscriptions| && remote == RemoteCanceled && op.gatewayReference != "" then
              var unnotified := t.(deliveries := s.deliveries);
              && |t.subscriptions| == |s.subscriptions|
              && EndedAt(s.subscriptions[k], t.subscriptions[k], now, "Reconciled cancellation", "")
              && t.subscriptions[k].status == Ended && Completes(s, t, o, op.gatewayReference)
              && unnotified == s.(subscriptions := s.subscriptions[k := t.subscriptions[k]], operations := t.operations)
              && ToldOnce(unnotified, Notice(NotifyInactivated, None, Some(k)), t)
            else t == s
  {
    hide PaymentKeys, Owned, DeliveryKeys, AllProcessed, BuildDelivery, ToldOnce;
    var op := s.operations[o];
    var k := op.payload.subscription;
    OperationRulesMean(op, op.gatewayReference, "");
    if k < |s.subscriptions| {
      EndsMean(s.subscriptions[k], Some(now), "Reconciled cancellation", "", now);
      var row := End(s.subscriptions[k], Some(now), "Reconciled cancellation", "", now);
      var ended := s.(subscriptions := s.subscriptions[k := row]);
      var done := CompleteOperation(ended, o, op.gatewayReference);
      if done.Some? {
        EndNoticeBuilds(done.value, k);
        RecordTellsOnce(done.value, InactivationNotice(k));
      }
    }
  }

  lemma EndNoticeBuilds(s: Store, k: nat)
    requires k < |s.subscriptions|
    ensures BuildsIn(s, InactivationNotice(k))
  {
  }

  lemma StatusNoticeBuilds(s: Store, i: nat)
    requires i < |s.payments|
    ensures BuildsIn(s, Notice(NotifyStatusUpdated, Some(i), None))
  {
  }

  // ---------------------------------------------------------------- payments

  /** A payment still open takes the status the gateway reports, by the diagram; it is
      written exactly when its status changes, and nothing else ever changes. */
  lemma PaymentOutcome(s: Store, i: nat, said: GatewayStatus, date: Option<DateTime>, net: Option<int>, now: DateTime)
    requires Good(s)
    ensures var t := Apply(s, Transaction.ReconcilePayment(i, said, date, net, now));
            if i >= |s.payments| || s.payments[i].status !in {Pending, Overdue, Confirmed} then t == s
            else
              var a := s.payments[i];
              var to := NextStatus(a.status, said);
              && to.Some?
              && if to.value == a.status || (to.value in {Confirmed, Paid} && net.Some? && net.value < 0) then t == s
                 else
                   && |t.payments| == |s.payments| && t == s.(payments := s.payments[i := t.payments[i]])
                   && MovedTo(a, t.payments[i], to.value, date, net, now)
  {
    hide SubscriptionKeys, Owned, DeliveryKeys, AllProcessed, OperationKeys, ApplyGatewayStatus, WritePayment;
    if i < |s.payments| && s.payments[i].status in {Pending, Overdue, Confirmed} {
      WordsFollowTheDiagram(s.payments[i], said, date, net, now);
      var moved := ApplyGatewayStatus(s.payments[i], said, date, net, now);
      if moved.Some? { RewrittenPayment(s.payments, i, moved.value); }
    }
  }

  // ---------------------------------------------------------------- checkouts

  /** The reference the checkout was requested under. */
  predicate RequestedUnder(op: OperationRow, reference: ExternalReference)
    requires op.payload.CheckoutPayload?
  {
    if op.payload.externalReference == NoReference then reference == FirstCheckout(op.key.system, op.payload.systemPaymentId)
    else reference == op.payload.externalReference
  }

  predicate IsFor(row: PaymentRow, op: OperationRow)
    requires op.payload.CheckoutPayload?
  {
    row.systemPaymentId == op.payload.systemPaymentId && row.fromSystem == op.key.system
  }

  /** The status a report stands for. */
  function Word(status: RemoteCheckoutStatus): PaymentStatus {
    match status
    case CheckoutIsPaid => Paid
    case CheckoutIsCanceled => Canceled
    case CheckoutIsExpired => Expired
    case _ => Pending
  }

  /** A checkout just made or renewed, and settled now as reported: `paid` and
      `canceled` are the dates it had before. */
  predicate SettledNow(row: PaymentRow, found: RemoteCheckout, paid: Option<DateTime>, canceled: Option<DateTime>,
                       now: DateTime)
  {
    && row.status == Word(found.status) && row.updatedAt == now
    && row.paidDate == (if found.status == CheckoutIsPaid then Some(now) else paid)
    && row.canceledDate == (if found.status == CheckoutIsCanceled then Some(now) else canceled)
    && row.providerPaymentId == found.id && row.checkoutLink == found.url && row.externalReference == found.reference
  }

  /** A payment made from the request. */
  predicate MadeAs(row: PaymentRow, op: OperationRow, found: RemoteCheckout, now: DateTime)
    requires op.payload.CheckoutPayload?
  {
    && IsFor(row, op) && SettledNow(row, found, None, None, now)
    && row.gateway == op.provider && row.value == op.payload.value && row.webhookLink == op.payload.webhookLink
    && row.netValue == 0 && row.paymentType == Undefined && row.refundedDate == None && row.subscription == None
  }

  /** An ended payment renewed: the checkout's id, link and reference, and all else
      that its status does not say as it was. */
  predicate RenewedTo(a: PaymentRow, b: PaymentRow, found: RemoteCheckout, now: DateTime) {
    && SettledNow(b, found, a.paidDate, a.canceledDate, now)
    && b.systemPaymentId == a.systemPaymentId && b.fromSystem == a.fromSystem && b.gateway == a.gateway
    && b.value == a.value && b.netValue == a.netValue && b.paymentType == a.paymentType
    && b.refundedDate == a.refundedDate && b.subscription == a.subscription && b.webhookLink == a.webhookLink
  }

  /** Whether a stored payment may take the reported status. */
  predicate MayTake(status: PaymentStatus, report: RemoteCheckoutStatus) {
    match report
    case CheckoutIsPaid => status in {Pending, Overdue, Confirmed, Paid}
    case CheckoutIsCanceled => status in {Pending, Overdue, Confirmed, Canceled}
    case CheckoutIsExpired => status in {Pending, Overdue, Expired}
    case _ => true
  }

  /** A stored payment takes the reported status, unless it has it already. */
  predicate TakesWord(a: PaymentRow, b: PaymentRow, report: RemoteCheckoutStatus, now: DateTime) {
    if report == CheckoutIsActive || a.status == Word(report) then b == a
    else MovedTo(a, b, Word(report), if report == CheckoutIsPaid then Some(now) else None, None, now)
  }

  /** One commit: payment `i`, the operation completed with the checkout's id, and
      unless the checkout is still active its status told once. */
  predicate CheckoutCommitted(s: Store, t: Store, o: nat, i: nat, found: RemoteCheckout)
    requires o < |s.operations| && i < |t.payments|
  {
    var unnotified := t.(deliveries := s.deliveries);
    && Completes(s, t, o, found.id)
    && unnotified == s.(payments := t.payments, operations := t.operations)
    && t.payments == (if i < |s.payments| then s.payments[i := t.payments[i]] else s.payments + [t.payments[i]])
    && if found.status == CheckoutIsActive then t == unnotified
       else ToldOnce(unnotified, Notice(NotifyStatusUpdated, Some(i), None), t)
  }

  /** What reconciliation makes of a payment that is stored. */
  predicate StoredReconciled(s: Store, t: Store, o: nat, i: nat, found: RemoteCheckout, now: DateTime)
    requires o < |s.operations| && i < |s.payments|
  {
    var a := s.payments[i];
    if a.status in {Expired, Canceled} && a.externalReference != found.reference then
      if forall j :: 0 <= j < |s.payments| && j != i ==> s.payments[j].providerPaymentId != found.id then
        |t.payments| == |s.payments| && CheckoutCommitted(s, t, o, i, found) && RenewedTo(a, t.payments[i], found, now)
      else t == s
    else if MayTake(a.status, found.status) then
      |t.payments| == |s.payments| && CheckoutCommitted(s, t, o, i, found) && TakesWord(a, t.payments[i], found.status, now)
    else t == s
  }

  /** What it makes of a request whose payment is not stored. */
  predicate MissingReconciled(s: Store, t: Store, o: nat, found: RemoteCheckout, now: DateTime)
    requires o < |s.operations| && s.operations[o].payload.CheckoutPayload?
  {
    var op, i := s.operations[o], |s.payments|;
    if op.payload.systemPaymentId != "" && op.payload.value > 0 && !HasId(s.payments, found.id) then
      |t.payments| == i + 1 && CheckoutCommitted(s, t, o, i, found) && MadeAs(t.payments[i], op, found, now)
    else t == s
  }

  /** A checkout is reconciled when it has the reference it was requested under, an id
      and a status known: its payment is made, renewed or moved to that status. */
  lemma CheckoutOutcome(s: Store, o: nat, found: RemoteCheckout, now: DateTime)
    requires Good(s) && o < |s.operations| && s.operations[o].status == RequiresReconciliation
    requires s.operations[o].payload.CheckoutPayload?
    ensures var op, t := s.operations[o], Apply(s, Transaction.ReconcileCheckout(o, found, now));
            if op.gatewayReference != "" && found.id != "" && found.status != CheckoutIsUnknown
               && RequestedUnder(op, found.reference) then
              && (forall i :: 0 <= i < |s.payments| && IsFor(s.payments[i], op) ==> StoredReconciled(s, t, o, i, found, now))
              && ((forall i :: 0 <= i < |s.payments| ==> !IsFor(s.payments[i], op)) ==> MissingReconciled(s, t, o, found, now))
            else t == s
  {
    hide StoredReconciled, MissingReconciled, BuildDelivery, WritePayment, Record, Good, CheckoutTarget, MoveCheckout;
    var op := s.operations[o];
    if op.gatewayReference != "" && found.id != "" && found.status != CheckoutIsUnknown && RequestedUnder(op, found.reference) {
      forall i | 0 <= i < |s.payments| && IsFor(s.payments[i], op)
        ensures StoredReconciled(s, Apply(s, Transaction.ReconcileCheckout(o, found, now)), o, i, found, now)
      {
        StoredOutcome(s, o, i, found, now);
      }
      if forall i :: 0 <= i < |s.payments| ==> !IsFor(s.payments[i], op) { MissingOutcome(s, o, found, now); }
    }
  }

  /** Telling does not look at operations. */
  lemma ToldBeside(s: Store, n: Notice, t: Store, operations: seq<OperationRow>)
    requires NoticeFits(s, n) && ToldOnce(s, n, t)
    ensures ToldOnce(s.(operations := operations), n, t.(operations := operations))
  {
  }

  /** The payments written, with row `i` as it is to be, the rest goes through. */
  lemma WrittenCommits(s: Store, o: nat, i: nat, payments: seq<PaymentRow>, found: RemoteCheckout)
    requires o < |s.operations| && i < |payments| && found.id != ""
    requires payments == (if i < |s.payments| then s.payments[i := payments[i]] else s.payments + [payments[i]])
    ensures var written := s.(payments := payments);
            var notified := if found.status == CheckoutIsActive then written
                            else Record(written, BuildDelivery(written, Notice(NotifyStatusUpdated, Some(i), None)));
            var done := CompleteOperation(notified, o, found.id);
            && done.Some? && done.value.payments == payments && CheckoutCommitted(s, done.value, o, i, found)
  {
    hide BuildDelivery, ToldOnce;
    var written, n := s.(payments := payments), Notice(NotifyStatusUpdated, Some(i), None);
    StatusNoticeBuilds(written, i);
    RecordTellsOnce(written, n);
    OperationRulesMean(s.operations[o], found.id, "");
    var notified := if found.status == CheckoutIsActive then written else Record(written, BuildDelivery(written, n));
    ToldBeside(written, n, Record(written, BuildDelivery(written, n)), CompleteOperation(notified, o, found.id).value.operations);
  }

  /** The transaction, once the row to bring up to date is known. */
  lemma TargetCommits(s: Store, o: nat, i: nat, row: PaymentRow, save: bool, found: RemoteCheckout, now: DateTime)
    requires o < |s.operations| && s.operations[o].status == RequiresReconciliation
    requires s.operations[o].payload.CheckoutPayload? && s.operations[o].gatewayReference != ""
    requires found.id != "" && found.status != CheckoutIsUnknown && found.reference == ExpectedReference(s.operations[o])
    requires CheckoutTarget(s, s.operations[o], found, now) == Some((i, row, save)) && (!save ==> i < |s.payments|)
    ensures var t := Apply(s, Transaction.ReconcileCheckout(o, found, now));
            var moved := if save then MoveCheckout(row, found.status, now) else Some(row);
            var payments := if moved.None? then None
                            else if save then WritePayment(s.payments, i, moved.value) else Some(s.payments);
            if payments.None? then t == s
            else i < |payments.value| && t.payments == payments.value && CheckoutCommitted(s, t, o, i, found)
  {
    hide CheckoutTarget, MoveCheckout, BuildDelivery, CheckoutCommitted, Record, CompleteOperation;
    var moved := if save then MoveCheckout(row, found.status, now) else Some(row);
    if moved.Some? && (!save || WritePayment(s.payments, i, moved.value).Some?) {
      WrittenCommits(s, o, i, if save then WritePayment(s.payments, i, moved.value).value else s.payments, found);
    }
  }

  /** The stored payment is the one found. */
  lemma StoredTarget(s: Store, op: OperationRow, i: nat, found: RemoteCheckout, now: DateTime)
    requires PaymentKeys(s.payments) && op.payload.CheckoutPayload? && i < |s.payments| && IsFor(s.payments[i], op)
    requires found.id != "" && found.status != CheckoutIsUnknown && RequestedUnder(op, found.reference)
    ensures found.reference == ExpectedReference(op)
    ensures var a, target := s.payments[i], CheckoutTarget(s, op, found, now);
            if a.status in {Expired, Canceled} && a.externalReference != found.reference then
              target.Some? && target.value.0 == i && target.value.2
              && RenewedAs(a, target.value.1, found.id, found.url, found.reference, now)
            else target == Some((i, a, a.status != Word(found.status)))
  {
    EndsAndRenewals(s.payments[i], found.id, found.url, found.reference, now);
    hide Renew;
  }

  /** A stored payment moved to the reported status. */
  lemma MoveTakesWord(a: PaymentRow, report: RemoteCheckoutStatus, now: DateTime)
    requires a.status != Word(report) && report != CheckoutIsUnknown
    ensures var moved := MoveCheckout(a, report, now);
            && (moved.Some? <==> MayTake(a.status, report))
            && (moved.Some? ==> TakesWord(a, moved.value, report, now))
  {
    PayFollows(a, Some(now), None, now);
    EndsAndRenewals(a, "", "", NoReference, now);
  }

  /** A payment just made or renewed is moved without refusal. */
  lemma MoveSettles(a: PaymentRow, found: RemoteCheckout, now: DateTime)
    requires a.status == Pending && a.updatedAt == now && found.status != CheckoutIsUnknown
    requires a.providerPaymentId == found.id && a.checkoutLink == found.url && a.externalReference == found.reference
    ensures var moved := MoveCheckout(a, found.status, now);
            && moved.Some? && SettledNow(moved.value, found, a.paidDate, a.canceledDate, now)
            && moved.value == a.(status := moved.value.status, paidDate := moved.value.paidDate,
                                 canceledDate := moved.value.canceledDate)
  {
  }

  lemma KeptRowRewrites(ps: seq<PaymentRow>, i: nat, row: PaymentRow)
    requires PaymentKeys(ps) && i < |ps|
    requires row.systemPaymentId == ps[i].systemPaymentId && row.fromSystem == ps[i].fromSystem && row.providerPaymentId != ""
    ensures WritePayment(ps, i, row) ==
              if forall j :: 0 <= j < |ps| && j != i ==> ps[j].providerPaymentId != row.providerPaymentId
              then Some(ps[i := row]) else None
  {
  }

  lemma StoredOutcome(s: Store, o: nat, i: nat, found: RemoteCheckout, now: DateTime)
    requires Good(s) && o < |s.operations| && s.operations[o].status == RequiresReconciliation
    requires s.operations[o].payload.CheckoutPayload? && i < |s.payments| && IsFor(s.payments[i], s.operations[o])
    requires s.operations[o].gatewayReference != "" && found.id != "" && found.status != CheckoutIsUnknown
    requires RequestedUnder(s.operations[o], found.reference)
    ensures StoredReconciled(s, Apply(s, Transaction.ReconcileCheckout(o, found, now)), o, i, found, now)
  {
    hide SubscriptionKeys, Owned, DeliveryKeys, AllProcessed, OperationKeys, Apply, CheckoutTarget, MoveCheckout,
         CheckoutCommitted, WritePayment, MovedTo, ExpectedReference, RequestedUnder;
    var a := s.payments[i];
    StoredTarget(s, s.operations[o], i, found, now);
    var (_, row, save) := CheckoutTarget(s, s.operations[o], found, now).value;
    TargetCommits(s, o, i, row, save, found, now);
    if a.status in {Expired, Canceled} && a.externalReference != found.reference {
      MoveSettles(row, found, now);
      KeptRowRewrites(s.payments, i, MoveCheckout(row, found.status, now).value);
    } else if save {
      MoveTakesWord(a, found.status, now);
      var moved := MoveCheckout(a, found.status, now);
      if moved.Some? {
        TakingKeepsKeys(a, moved.value, found.status, now);
        KeptRowRewrites(s.payments, i, moved.value);
      }
    }
  }

  lemma TakingKeepsKeys(a: PaymentRow, b: PaymentRow, report: RemoteCheckoutStatus, now: DateTime)
    requires TakesWord(a, b, report, now)
    ensures b.providerPaymentId == a.providerPaymentId && b.systemPaymentId == a.systemPaymentId && b.fromSystem == a.fromSystem
  {
  }

  lemma MissingOutcome(s: Store, o: nat, found: RemoteCheckout, now: DateTime)
    requires Good(s) && o < |s.operations| && s.operations[o].status == RequiresReconciliation
    requires s.operations[o].payload.CheckoutPayload?
    requires forall i :: 0 <= i < |s.payments| ==> !IsFor(s.payments[i], s.operations[o])
    requires s.operations[o].gatewayReference != "" && found.id != "" && found.status != CheckoutIsUnknown
    requires RequestedUnder(s.operations[o], found.reference)
    ensures MissingReconciled(s, Apply(s, Transaction.ReconcileCheckout(o, found, now)), o, found, now)
  {
    hide Good, MoveCheckout, CheckoutCommitted, SettledNow, Apply;
    var op := s.operations[o];
    var target := CheckoutTarget(s, op, found, now);
    if target.Some? {
      var row := target.value.1;
      TargetCommits(s, o, |s.payments|, row, true, found, now);
      MoveSettles(row, found, now);
    } else { NoTargetCommitsNothing(s, o, found, now); }
  }

  lemma NoTargetCommitsNothing(s: Store, o: nat, found: RemoteCheckout, now: DateTime)
    requires o < |s.operations| && s.operations[o].payload.CheckoutPayload? && found.status != CheckoutIsUnknown
    requires CheckoutTarget(s, s.operations[o], found, now).None? && s.operations[o].gatewayReference != ""
    ensures Apply(s, Transaction.ReconcileCheckout(o, found, now)) == s
  {
    hide CheckoutTarget;
  }

  /** Only an operation that awaits reconciliation, of the kind reconciled, is. */
  lemma OnlyAwaiting(s: Store, t: Transaction)
    requires t.ReconcileCreation? || t.ReconcileCancellation? || t.ReconcileCheckout?
    requires Apply(s, t) != s
    ensures t.o < |s.operations| && s.operations[t.o].status == RequiresReconciliation
    ensures t.ReconcileCreation? <==> s.operations[t.o].payload.SubscriptionPayload?
    ensures t.ReconcileCancellation? <==> s.operations[t.o].payload.CancelPayload?
    ensures t.ReconcileCheckout? <==> s.operations[t.o].payload.CheckoutPayload?
  {
    hide CheckoutTarget, BuildDelivery, WritePayment, WriteSubscription, RebuiltSubscription, CompleteOperation, Record,
         MoveCheckout, End;
  }
}
