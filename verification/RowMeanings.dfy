/** What the rules on one row mean, told from the rows before and after: a diagram
    of payment statuses, and the courses of a subscription. */
module RowMeanings {
  import opened BillingCalendar
  import opened Entities

  // ---------------------------------------------------------------- payments

  /** Where each status goes at each word of a gateway; `None` is a refusal. */
  function NextStatus(from: PaymentStatus, word: GatewayStatus): Option<PaymentStatus> {
    match from
    case Pending => Some(OpenGoes(from, word))
    case Overdue => Some(OpenGoes(from, word))
    case Confirmed =>
      (match word
       case SaysReceived => Some(Paid)
       case SaysOverdue => Some(Overdue)
       case SaysRefunded => Some(Refunded)
       case SaysChargeback => Some(Refunded)
       case SaysDeleted => Some(Canceled)
       case _ => Some(Confirmed))
    case Paid =>
      (match word
       case SaysOverdue => None
       case SaysRefunded => Some(Refunded)
       case SaysChargeback => Some(Refunded)
       case _ => Some(Paid))
    case Expired => if word == SaysOverdue then Some(Overdue) else ClosedGoes(from, word)
    case _ => if word == SaysOverdue then None else ClosedGoes(from, word)
  }

  function OpenGoes(from: PaymentStatus, word: GatewayStatus): PaymentStatus {
    match word
    case SaysConfirmed => Confirmed
    case SaysReceived => Paid
    case SaysOverdue => Overdue
    case SaysDeleted => Canceled
    case _ => from
  }

  function ClosedGoes(from: PaymentStatus, word: GatewayStatus): Option<PaymentStatus> {
    if word in {SaysConfirmed, SaysReceived} then None else Some(from)
  }

  /** A payment that moved to a status: the dates and the net value that go with
      it, the time of the update, and nothing else. */
  predicate MovedTo(a: PaymentRow, b: PaymentRow, to: PaymentStatus, date: Option<DateTime>, net: Option<int>, now: DateTime) {
    var settling := to in {Confirmed, Paid};
    b == a.(status := to, updatedAt := now,
            paidDate := if !settling then a.paidDate else if date.Some? then date else Some(now),
            netValue := if settling && net.Some? then net.value else a.netValue,
            canceledDate := if to == Canceled then Some(now) else a.canceledDate,
            refundedDate := if to == Refunded then Some(now) else a.refundedDate)
  }

  /** What a gateway's word makes of a payment, by the diagram. */
  predicate Follows(a: PaymentRow, word: GatewayStatus, date: Option<DateTime>, net: Option<int>, now: DateTime,
                    r: Option<PaymentRow>)
  {
    var to := NextStatus(a.status, word);
    if to.None? then r == None
    else if to.value == a.status then r == Some(if word == SaysOverdue then a.(updatedAt := now) else a)
    else if to.value in {Confirmed, Paid} && net.Some? && net.value < 0 then r == None
    else r.Some? && MovedTo(a, r.value, to.value, date, net, now)
  }

  lemma PayFollows(a: PaymentRow, date: Option<DateTime>, net: Option<int>, now: DateTime)
    ensures Follows(a, SaysReceived, date, net, now, Pay(a, date, net, now))
  {
  }

  lemma ConfirmFollows(a: PaymentRow, date: Option<DateTime>, net: Option<int>, now: DateTime)
    ensures Follows(a, SaysConfirmed, date, net, now, Confirm(a, date, net, now))
  {
  }

  lemma OverdueFollows(a: PaymentRow, date: Option<DateTime>, net: Option<int>, now: DateTime)
    ensures Follows(a, SaysOverdue, date, net, now, MarkOverdue(a, now))
  {
  }

  lemma RefundFollows(a: PaymentRow, word: GatewayStatus, date: Option<DateTime>, net: Option<int>, now: DateTime)
    requires word in {SaysRefunded, SaysChargeback}
    ensures Follows(a, word, date, net, now, if a.status in {Paid, Confirmed} then Refund(a, now) else Some(a))
  {
  }

  lemma DeletedFollows(a: PaymentRow, date: Option<DateTime>, net: Option<int>, now: DateTime)
    ensures Follows(a, SaysDeleted, date, net, now, if a.status in {Pending, Overdue, Confirmed} then Cancel(a, now) else Some(a))
  {
  }

  /** Every word does what the diagram says. */
  lemma WordsFollowTheDiagram(a: PaymentRow, word: GatewayStatus, date: Option<DateTime>, net: Option<int>, now: DateTime)
    ensures Follows(a, word, date, net, now, ApplyGatewayStatus(a, word, date, net, now))
  {
    match word
    case SaysConfirmed =>
      hide Follows, Confirm;
      ConfirmFollows(a, date, net, now);
    case SaysReceived =>
      hide Follows, Pay;
      PayFollows(a, date, net, now);
    case SaysOverdue =>
      hide Follows, MarkOverdue;
      OverdueFollows(a, date, net, now);
    case SaysDeleted =>
      hide Follows, Cancel;
      DeletedFollows(a, date, net, now);
    case SaysOther =>
    case _ =>
      hide Follows, Refund;
      RefundFollows(a, word, date, net, now);
  }

  /** The moves that are not a gateway's word. */
  lemma EndsAndRenewals(a: PaymentRow, id: string, link: string, reference: ExternalReference, now: DateTime)
    ensures Cancel(a, now).Some? <==> a.status in {Pending, Overdue, Confirmed}
    ensures Cancel(a, now).Some? ==> MovedTo(a, Cancel(a, now).value, Canceled, None, None, now)
    ensures Expire(a, now).Some? <==> a.status in {Pending, Overdue}
    ensures Expire(a, now).Some? ==> MovedTo(a, Expire(a, now).value, Expired, None, None, now)
    ensures Refund(a, now).Some? <==> a.status in {Paid, Confirmed}
    ensures Refund(a, now).Some? ==> MovedTo(a, Refund(a, now).value, Refunded, None, None, now)
    ensures Renew(a, id, link, reference, now).Some? <==> a.status in {Expired, Canceled} && id != ""
    ensures Renew(a, id, link, reference, now).Some? ==>
              RenewedAs(a, Renew(a, id, link, reference, now).value, id, link, reference, now)
  {
  }

  /** A payment issued anew: another checkout, pending, and all else as it was. */
  predicate RenewedAs(a: PaymentRow, b: PaymentRow, id: string, link: string, reference: ExternalReference, now: DateTime) {
    && b.providerPaymentId == id && b.checkoutLink == link && b.externalReference == reference
    && b.status == Pending && b.updatedAt == now
    && b.systemPaymentId == a.systemPaymentId && b.fromSystem == a.fromSystem && b.gateway == a.gateway
    && b.value == a.value && b.netValue == a.netValue && b.paymentType == a.paymentType
    && b.paidDate == a.paidDate && b.canceledDate == a.canceledDate && b.refundedDate == a.refundedDate
    && b.subscription == a.subscription && b.webhookLink == a.webhookLink
  }

  /** A payment that nothing has happened to yet. */
  predicate Untouched(p: PaymentRow, now: DateTime) {
    && p.status == Pending && p.updatedAt == now && p.netValue == 0
    && p.paidDate == None && p.canceledDate == None && p.refundedDate == None
  }

  // ---------------------------------------------------------------- subscriptions

  /** A subscription extended by a payment: one period on from the later of the
      payment's date and its own expiry, active, and all else as it was. */
  predicate ExtendedByPeriod(a: SubscriptionRow, b: SubscriptionRow, date: DateTime) {
    && PeriodAfter(if Before(a.expiresAt, date) then date else a.expiresAt, b.expiresAt, a.subscriptionType)
    && b.lastPaidDate == Some(date) && b.status == Active
    && b == a.(lastPaidDate := b.lastPaidDate, expiresAt := b.expiresAt, status := b.status)
  }

  lemma ExtendsByPeriod(a: SubscriptionRow, date: DateTime)
    ensures Extend(a, date).Some? <==> a.status != Ended
    ensures Extend(a, date).Some? ==> ExtendedByPeriod(a, Extend(a, date).value, date)
  {
    hide PeriodAfter, AddBillingPeriod;
    var base := if Before(a.expiresAt, date) then date else a.expiresAt;
    ExtensionIsOnePeriod(base, AddBillingPeriod(base, a.subscriptionType), a.subscriptionType);
  }

  /** A subscription whose end is asked for: unless it was already, the request is
      noted, and nothing else. */
  predicate EndAsked(a: SubscriptionRow, b: SubscriptionRow, reason: string, job: string, now: DateTime) {
    if a.status == CancellationPending then b == a
    else
      && b.status == CancellationPending && b.cancellationRequestedAt == Some(now)
      && b.cancellationReason == reason && b.cancellationJobId == job
      && b == a.(status := b.status, cancellationRequestedAt := b.cancellationRequestedAt,
                 cancellationReason := b.cancellationReason, cancellationJobId := b.cancellationJobId)
  }

  /** A subscription ended: unless it was already, with the time, the reason and the
      job given, and the request's time if it had none; nothing else. */
  predicate EndedAt(a: SubscriptionRow, b: SubscriptionRow, at: DateTime, reason: string, job: string) {
    if a.status == Ended then b == a
    else
      && b.status == Ended && b.cancelledAt == Some(at)
      && (reason != "" ==> b.cancellationReason == reason) && (reason == "" ==> b.cancellationReason == a.cancellationReason)
      && (job != "" ==> b.cancellationJobId == job) && (job == "" ==> b.cancellationJobId == a.cancellationJobId)
      && (if a.cancellationRequestedAt.Some? then b.cancellationRequestedAt == a.cancellationRequestedAt
          else b.cancellationRequestedAt == Some(at))
      && b == a.(status := b.status, cancelledAt := b.cancelledAt, cancellationReason := b.cancellationReason,
                 cancellationJobId := b.cancellationJobId, cancellationRequestedAt := b.cancellationRequestedAt)
  }

  lemma EndsMean(a: SubscriptionRow, at: Option<DateTime>, reason: string, job: string, now: DateTime)
    ensures RequestEnd(a, reason, job, now).Some? <==> a.status != Ended
    ensures RequestEnd(a, reason, job, now).Some? ==> EndAsked(a, RequestEnd(a, reason, job, now).value, reason, job, now)
    ensures EndedAt(a, End(a, at, reason, job, now), if at.Some? then at.value else now, reason, job)
  {
  }

  // ---------------------------------------------------------------- operations

  /** The message a failure is recorded with. */
  predicate MessageKept(message: string, recorded: string, default: string) {
    if message == "" then recorded == default else recorded == message
  }

  predicate FailedWith(a: OperationRow, b: OperationRow, message: string) {
    && b.status == Rejected && b.gatewayReference == a.gatewayReference
    && MessageKept(message, b.errorMessage, "Falha nao detalhada.")
    && b.key == a.key && b.provider == a.provider && b.payload == a.payload
  }

  predicate SetAsideWith(a: OperationRow, b: OperationRow, reference: string, message: string) {
    && b.status == RequiresReconciliation && b.gatewayReference == reference
    && MessageKept(message, b.errorMessage, "Operacao marcada para reconciliacao.")
    && b.key == a.key && b.provider == a.provider && b.payload == a.payload
  }

  predicate CompletedWith(a: OperationRow, b: OperationRow, reference: string) {
    && b.status == Completed && b.gatewayReference == reference && b.errorMessage == ""
    && b.key == a.key && b.provider == a.provider && b.payload == a.payload
  }

  /** An operation rewritten as another says, its request kept. */
  predicate Decided(a: OperationRow, op: OperationRow, b: OperationRow) {
    && b.status == op.status && b.gatewayReference == op.gatewayReference && b.errorMessage == op.errorMessage
    && b.key == a.key && b.provider == a.provider && b.payload == a.payload
  }

  lemma OperationRulesMean(a: OperationRow, reference: string, message: string)
    ensures FailedWith(a, Fail(a, message), message) && SetAsideWith(a, SetAside(a, reference, message), reference, message)
    ensures Complete(a, reference).Some? <==> reference != ""
    ensures Complete(a, reference).Some? ==> CompletedWith(a, Complete(a, reference).value, reference)
  {
  }
}
