/** The mutable domain objects, each method proved against the rule on rows. */
module EntityObjects {
  import opened BillingCalendar
  import opened Entities
  import opened RowMeanings

  class Payment {
    const id: Option<nat>
    const systemPaymentId: string
    const fromSystem: System
    const value: int
    const subscription: Option<nat>
    const webhookLink: string
    var providerPaymentId: string
    var gateway: GatewayProvider
    var netValue: int
    var status: PaymentStatus
    var paymentType: PaymentType
    var paidDate: Option<DateTime>
    var canceledDate: Option<DateTime>
    var refundedDate: Option<DateTime>
    var checkoutLink: string
    var externalReference: ExternalReference
    var updatedAt: DateTime

    function Row(): PaymentRow
      reads this
    {
      PaymentRow(systemPaymentId, providerPaymentId, fromSystem, gateway, value, netValue, status, paymentType,
                 paidDate, canceledDate, refundedDate, subscription, checkoutLink, webhookLink,
                 externalReference, updatedAt)
    }

    constructor (row: PaymentRow, id: Option<nat>)
      ensures Row() == row && this.id == id
    {
      this.id := id;
      systemPaymentId, providerPaymentId := row.systemPaymentId, row.providerPaymentId;
      fromSystem, gateway, value, netValue := row.fromSystem, row.gateway, row.value, row.netValue;
      status, paymentType := row.status, row.paymentType;
      paidDate, canceledDate, refundedDate := row.paidDate, row.canceledDate, row.refundedDate;
      subscription, checkoutLink, webhookLink := row.subscription, row.checkoutLink, row.webhookLink;
      externalReference, updatedAt := row.externalReference, row.updatedAt;
    }

    method MarkAsCanceled(now: DateTime) returns (ok: bool)
      modifies this
      ensures ok == Cancel(old(Row()), now).Some?
      ensures Row() == if ok then Cancel(old(Row()), now).value else old(Row())
      ensures ok ==> MovedTo(old(Row()), Row(), Canceled, None, None, now)
    {
      if status !in {Pending, Overdue, Confirmed} { return false; }
      status := Canceled;
      canceledDate := Some(now);
      updatedAt := now;
      return true;
    }

    /** A negative net value is noticed only after the status and the date are set. */
    method MarkAsConfirmed(date: Option<DateTime>, net: Option<int>, now: DateTime) returns (ok: bool)
      modifies this
      ensures ok == Confirm(old(Row()), date, net, now).Some?
      ensures ok ==> Row() == Confirm(old(Row()), date, net, now).value
      ensures !ok && !Negative(net) ==> Row() == old(Row())
      ensures Follows(old(Row()), SaysConfirmed, date, net, now, if ok then Some(Row()) else None)
    {
      ConfirmFollows(Row(), date, net, now);
      if status in {Confirmed, Paid} { return true; }
      if status !in {Pending, Overdue} { return false; }
      status := Confirmed;
      paidDate := if date.Some? then date else Some(now);
      if net.Some? {
        if net.value < 0 { return false; }
        netValue := net.value;
      }
      updatedAt := now;
      return true;
    }

    method MarkAsOverdue(now: DateTime) returns (ok: bool)
      modifies this
      ensures ok == MarkOverdue(old(Row()), now).Some?
      ensures Row() == if ok then MarkOverdue(old(Row()), now).value else old(Row())
      ensures Follows(old(Row()), SaysOverdue, None, None, now, if ok then Some(Row()) else None)
    {
      OverdueFollows(Row(), None, None, now);
      if status == Paid { return false; }
      if status in {Canceled, Refunded, Failed} { return false; }
      status := Overdue;
      updatedAt := now;
      return true;
    }

    method MarkAsExpired(now: DateTime) returns (ok: bool)
      modifies this
      ensures ok == Expire(old(Row()), now).Some?
      ensures Row() == if ok then Expire(old(Row()), now).value else old(Row())
      ensures ok ==> MovedTo(old(Row()), Row(), Expired, None, None, now)
    {
      if status !in {Pending, Overdue} { return false; }
      status := Expired;
      updatedAt := now;
      return true;
    }

    method MarkAsPaid(date: Option<DateTime>, net: Option<int>, now: DateTime) returns (ok: bool)
      modifies this
      ensures ok == Pay(old(Row()), date, net, now).Some?
      ensures ok ==> Row() == Pay(old(Row()), date, net, now).value
      ensures !ok && !Negative(net) ==> Row() == old(Row())
      ensures Follows(old(Row()), SaysReceived, date, net, now, if ok then Some(Row()) else None)
    {
      PayFollows(Row(), date, net, now);
      if status == Paid { return true; }
      if status !in {Pending, Overdue, Confirmed} { return false; }
      status := Paid;
      paidDate := if date.Some? then date else Some(now);
      if net.Some? {
        if net.value < 0 { return false; }
        netValue := net.value;
      }
      updatedAt := now;
      return true;
    }

    method MarkAsRefunded(now: DateTime) returns (ok: bool)
      modifies this
      ensures ok == Refund(old(Row()), now).Some?
      ensures Row() == if ok then Refund(old(Row()), now).value else old(Row())
      ensures ok ==> MovedTo(old(Row()), Row(), Refunded, None, None, now)
    {
      if status !in {Paid, Confirmed} { return false; }
      refundedDate := Some(now);
      status := Refunded;
      updatedAt := now;
      return true;
    }

    method RenewCheckout(providerPaymentId: string, checkoutLink: string, reference: ExternalReference, now: DateTime)
      returns (ok: bool)
      modifies this
      ensures ok == Renew(old(Row()), providerPaymentId, checkoutLink, reference, now).Some?
      ensures Row() == if ok then Renew(old(Row()), providerPaymentId, checkoutLink, reference, now).value
                       else old(Row())
      ensures ok ==> RenewedAs(old(Row()), Row(), providerPaymentId, checkoutLink, reference, now)
    {
      if status !in {Expired, Canceled} { return false; }
      if providerPaymentId == "" { return false; }
      this.providerPaymentId := providerPaymentId;
      this.checkoutLink := checkoutLink;
      externalReference := reference;
      status := Pending;
      updatedAt := now;
      return true;
    }

    /** `apply_gateway_payment_status`. */
    method ApplyGatewayStatus(said: GatewayStatus, date: Option<DateTime>, net: Option<int>, now: DateTime)
      returns (ok: bool, changed: bool)
      modifies this
      ensures var r := Entities.ApplyGatewayStatus(old(Row()), said, date, net, now);
              ok == r.Some? && (ok ==> Row() == r.value && changed == (r.value.status != old(Row()).status))
      ensures Follows(old(Row()), said, date, net, now, if ok then Some(Row()) else None)
    {
      WordsFollowTheDiagram(Row(), said, date, net, now);
      var before := status;
      ok := true;
      match said {
        case SaysConfirmed => ok := MarkAsConfirmed(date, net, now);
        case SaysReceived => ok := MarkAsPaid(date, net, now);
        case SaysOverdue => ok := MarkAsOverdue(now);
        case SaysRefunded | SaysChargeback =>
          if status in {Paid, Confirmed} { ok := MarkAsRefunded(now); }
        case SaysDeleted =>
          if status in {Pending, Overdue, Confirmed} { ok := MarkAsCanceled(now); }
        case SaysOther =>
      }
      changed := before != status;
    }
  }

  class Subscription {
    const id: Option<nat>
    const systemSubscriptionId: string
    const gatewaySubscriptionId: string
    const fromSystem: System
    const gateway: GatewayProvider
    const subscriptionType: SubscriptionType
    const value: int
    const webhookLink: string
    var status: SubscriptionStatus
    var lastPaidDate: Option<DateTime>
    var expiresAt: DateTime
    var cancelledAt: Option<DateTime>
    var cancellationRequestedAt: Option<DateTime>
    var cancellationReason: string
    var cancellationJobId: string

    function Row(): SubscriptionRow
      reads this
    {
      SubscriptionRow(systemSubscriptionId, gatewaySubscriptionId, fromSystem, gateway, subscriptionType, value,
                      status, lastPaidDate, expiresAt, cancelledAt, cancellationRequestedAt, cancellationReason,
                      cancellationJobId, webhookLink)
    }

    constructor (row: SubscriptionRow, id: Option<nat>)
      ensures Row() == row && this.id == id
    {
      this.id := id;
      systemSubscriptionId, gatewaySubscriptionId := row.systemSubscriptionId, row.gatewaySubscriptionId;
      fromSystem, gateway, subscriptionType, value := row.fromSystem, row.gateway, row.subscriptionType, row.value;
      status, lastPaidDate, expiresAt, cancelledAt := row.status, row.lastPaidDate, row.expiresAt, row.cancelledAt;
      cancellationRequestedAt, cancellationReason := row.cancellationRequestedAt, row.cancellationReason;
      cancellationJobId, webhookLink := row.cancellationJobId, row.webhookLink;
    }

    method MarkAsPaid(paymentDate: DateTime) returns (ok: bool)
      modifies this
      ensures ok == Extend(old(Row()), paymentDate).Some?
      ensures Row() == if ok then Extend(old(Row()), paymentDate).value else old(Row())
      ensures ok <==> old(status) != Ended
      ensures ok ==> ExtendedByPeriod(old(Row()), Row(), paymentDate)
    {
      ExtendsByPeriod(Row(), paymentDate);
      if status == Ended { return false; }
      lastPaidDate := Some(paymentDate);
      var base := Latest(paymentDate, expiresAt);
      expiresAt := AddBillingPeriod(base, subscriptionType);
      status := Active;
      return true;
    }

    method RequestCancellation(reason: string, job: string, now: DateTime) returns (ok: bool)
      modifies this
      ensures ok == RequestEnd(old(Row()), reason, job, now).Some?
      ensures Row() == if ok then RequestEnd(old(Row()), reason, job, now).value else old(Row())
      ensures ok ==> EndAsked(old(Row()), Row(), reason, job, now)
    {
      if status == Ended { return false; }
      if status == CancellationPending { return true; }
      status := CancellationPending;
      cancellationRequestedAt := Some(now);
      cancellationReason := reason;
      cancellationJobId := job;
      return true;
    }

    method Cancel(at: Option<DateTime>, reason: string, job: string, now: DateTime)
      modifies this
      ensures Row() == End(old(Row()), at, reason, job, now)
      ensures EndedAt(old(Row()), Row(), if at.Some? then at.value else now, reason, job)
    {
      if status == Ended { return; }
      status := Ended;
      cancelledAt := if at.Some? then at else Some(now);
      if reason != "" { cancellationReason := reason; }
      if job != "" { cancellationJobId := job; }
      if cancellationRequestedAt.None? { cancellationRequestedAt := cancelledAt; }
    }
  }

  class GatewayOperation {
    const id: nat
    const key: OperationKey
    const provider: GatewayProvider
    const payload: RequestPayload
    var status: OperationStatus
    var gatewayReference: string
    var errorMessage: string

    function Row(): OperationRow
      reads this
    {
      OperationRow(key, provider, payload, status, gatewayReference, errorMessage)
    }

    constructor (row: OperationRow, id: nat)
      ensures Row() == row && this.id == id
    {
      this.id := id;
      key, provider, payload := row.key, row.provider, row.payload;
      status, gatewayReference, errorMessage := row.status, row.gatewayReference, row.errorMessage;
    }

    method MarkCompleted(reference: string) returns (ok: bool)
      modifies this
      ensures ok == Complete(old(Row()), reference).Some?
      ensures Row() == if ok then Complete(old(Row()), reference).value else old(Row())
      ensures ok ==> CompletedWith(old(Row()), Row(), reference)
    {
      if reference == "" { return false; }
      status := Completed;
      gatewayReference := reference;
      errorMessage := "";
      return true;
    }

    method MarkFailed(message: string)
      modifies this
      ensures Row() == Fail(old(Row()), message)
      ensures FailedWith(old(Row()), Row(), message)
    {
      status := Rejected;
      errorMessage := if message == "" then "Falha nao detalhada." else message;
    }

    method MarkRequiresReconciliation(reference: string, message: string)
      modifies this
      ensures Row() == SetAside(old(Row()), reference, message)
      ensures SetAsideWith(old(Row()), Row(), reference, message)
    {
      status := RequiresReconciliation;
      gatewayReference := reference;
      errorMessage := if message == "" then "Operacao marcada para reconciliacao." else message;
    }
  }
}
