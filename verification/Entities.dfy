/** The rows the service stores and the rules that change one row. Each rule is
    a function on rows; `None` is the rule refusing (a DomainError). */
module Entities {
  import opened BillingCalendar

  datatype Option<+T> = None | Some(value: T)

  datatype System = Marketfy | NeectifyShop | NeectifyFood
  datatype GatewayProvider = Asaas | MercadoPago
  datatype PaymentStatus = Pending | Confirmed | Paid | Overdue | Failed | Canceled | Expired | Refunded
  datatype PaymentType = CreditCard | Boleto | Pix | DebitCard | Undefined
  datatype SubscriptionStatus = Unpaid | Active | CancellationPending | Ended
  datatype OperationStatus = InProgress | Completed | Rejected | RequiresReconciliation

  /** A reference agreed with the gateway, by its parts. */
  datatype ExternalReference =
    | NoReference
    | FirstCheckout(system: System, systemPaymentId: string)
    | RenewedCheckout(system: System, systemPaymentId: string, marker: DateTime)
    | OtherReference(text: string)

  /** Absent texts are "". A payment's identity is its position in the table. */
  datatype PaymentRow = PaymentRow(
    systemPaymentId: string,
    providerPaymentId: string,
    fromSystem: System,
    gateway: GatewayProvider,
    value: int,
    netValue: int,
    status: PaymentStatus,
    paymentType: PaymentType,
    paidDate: Option<DateTime>,
    canceledDate: Option<DateTime>,
    refundedDate: Option<DateTime>,
    subscription: Option<nat>,
    checkoutLink: string,
    webhookLink: string,
    externalReference: ExternalReference,
    updatedAt: DateTime)

  datatype SubscriptionRow = SubscriptionRow(
    systemSubscriptionId: string,
    gatewaySubscriptionId: string,
    fromSystem: System,
    gateway: GatewayProvider,
    subscriptionType: SubscriptionType,
    value: int,
    status: SubscriptionStatus,
    lastPaidDate: Option<DateTime>,
    expiresAt: DateTime,
    cancelledAt: Option<DateTime>,
    cancellationRequestedAt: Option<DateTime>,
    cancellationReason: string,
    cancellationJobId: string,
    webhookLink: string)

  /** What identifies a gateway operation: its name and its dedupe key, by their parts. */
  datatype OperationKey =
    | CancelSubscriptionKey(system: System, subscription: nat)
    | CreateSubscriptionKey(system: System, systemSubscriptionId: string)
    | CreateCheckoutKey(system: System, systemPaymentId: string)
    | RenewCheckoutKey(system: System, systemPaymentId: string, marker: DateTime)

  datatype RequestPayload =
    | CancelPayload(subscription: nat)
    | SubscriptionPayload(
        systemSubscriptionId: string, value: int, subscriptionType: SubscriptionType,
        expiresAt: DateTime, webhookLink: string)
    | CheckoutPayload(
        systemPaymentId: string, value: int, webhookLink: string, externalReference: ExternalReference)

  datatype OperationRow = OperationRow(
    key: OperationKey,
    provider: GatewayProvider,
    payload: RequestPayload,
    status: OperationStatus,
    gatewayReference: string,
    errorMessage: string)

  // ---------------------------------------------------------------- payment rules

  /** `Payment.create_subscription_payment`. */
  function NewInvoice(systemPaymentId: string, providerPaymentId: string, sub: SubscriptionRow, owner: nat,
                      value: int, paymentType: PaymentType, checkoutLink: string, now: DateTime)
    : Option<PaymentRow>
  {
    if systemPaymentId == "" || providerPaymentId == "" || value <= 0 then None
    else Some(PaymentRow(systemPaymentId, providerPaymentId, sub.fromSystem, sub.gateway, value, 0, Pending,
                         paymentType, None, None, None, Some(owner), checkoutLink, "", NoReference, now))
  }

  /** `Payment.create_standalone_payment`, for a checkout. */
  function NewCheckout(systemPaymentId: string, providerPaymentId: string, system: System, gateway: GatewayProvider,
                       value: int, checkoutLink: string, webhookLink: string, reference: ExternalReference,
                       now: DateTime)
    : Option<PaymentRow>
  {
    if systemPaymentId == "" || providerPaymentId == "" || value <= 0 then None
    else Some(PaymentRow(systemPaymentId, providerPaymentId, system, gateway, value, 0, Pending,
                         Undefined, None, None, None, None, checkoutLink, webhookLink, reference, now))
  }

  predicate Negative(net: Option<int>) {
    net.Some? && net.value < 0
  }

  function Or<T>(o: Option<T>, default: T): T {
    if o.Some? then o.value else default
  }

  function Cancel(p: PaymentRow, now: DateTime): Option<PaymentRow> {
    if p.status !in {Pending, Overdue, Confirmed} then None
    else Some(p.(status := Canceled, canceledDate := Some(now), updatedAt := now))
  }

  function Confirm(p: PaymentRow, date: Option<DateTime>, net: Option<int>, now: DateTime): Option<PaymentRow> {
    if p.status in {Confirmed, Paid} then Some(p)
    else if p.status !in {Pending, Overdue} || Negative(net) then None
    else Some(p.(status := Confirmed, paidDate := Some(Or(date, now)), netValue := Or(net, p.netValue), updatedAt := now))
  }

  function MarkOverdue(p: PaymentRow, now: DateTime): Option<PaymentRow> {
    if p.status in {Paid, Canceled, Refunded, Failed} then None
    else Some(p.(status := Overdue, updatedAt := now))
  }

  function Expire(p: PaymentRow, now: DateTime): Option<PaymentRow> {
    if p.status !in {Pending, Overdue} then None
    else Some(p.(status := Expired, updatedAt := now))
  }

  function Pay(p: PaymentRow, date: Option<DateTime>, net: Option<int>, now: DateTime): Option<PaymentRow> {
    if p.status == Paid then Some(p)
    else if p.status !in {Pending, Overdue, Confirmed} || Negative(net) then None
    else Some(p.(status := Paid, paidDate := Some(Or(date, now)), netValue := Or(net, p.netValue), updatedAt := now))
  }

  function Refund(p: PaymentRow, now: DateTime): Option<PaymentRow> {
    if p.status !in {Paid, Confirmed} then None
    else Some(p.(status := Refunded, refundedDate := Some(now), updatedAt := now))
  }

  /** A payment whose checkout has ended and may be issued anew. */
  predicate Renewable(p: PaymentRow) {
    p.status in {Expired, Canceled}
  }

  function Renew(p: PaymentRow, providerPaymentId: string, checkoutLink: string, reference: ExternalReference,
                 now: DateTime)
    : Option<PaymentRow>
  {
    if p.status !in {Expired, Canceled} || providerPaymentId == "" then None
    else Some(p.(providerPaymentId := providerPaymentId, checkoutLink := checkoutLink,
                 externalReference := reference, status := Pending, updatedAt := now))
  }

  /** A payment's status as a gateway words it. */
  datatype GatewayStatus =
    | SaysConfirmed | SaysReceived | SaysOverdue | SaysRefunded | SaysChargeback | SaysDeleted | SaysOther

  /** `apply_gateway_payment_status`; the caller compares statuses for "changed". */
  function ApplyGatewayStatus(p: PaymentRow, status: GatewayStatus, date: Option<DateTime>, net: Option<int>,
                              now: DateTime)
    : Option<PaymentRow>
  {
    match status
    case SaysConfirmed => Confirm(p, date, net, now)
    case SaysReceived => Pay(p, date, net, now)
    case SaysOverdue => MarkOverdue(p, now)
    case SaysRefunded => if p.status in {Paid, Confirmed} then Refund(p, now) else Some(p)
    case SaysChargeback => if p.status in {Paid, Confirmed} then Refund(p, now) else Some(p)
    case SaysDeleted => if p.status in {Pending, Overdue, Confirmed} then Cancel(p, now) else Some(p)
    case SaysOther => Some(p)
  }

  // ---------------------------------------------------------------- subscription rules

  function Extend(s: SubscriptionRow, paymentDate: DateTime): Option<SubscriptionRow> {
    if s.status == Ended then None
    else Some(s.(lastPaidDate := Some(paymentDate),
                 expiresAt := AddBillingPeriod(Latest(paymentDate, s.expiresAt), s.subscriptionType),
                 status := Active))
  }

  function RequestEnd(s: SubscriptionRow, reason: string, job: string, now: DateTime): Option<SubscriptionRow> {
    if s.status == Ended then None
    else if s.status == CancellationPending then Some(s)
    else Some(s.(status := CancellationPending, cancellationRequestedAt := Some(now),
                 cancellationReason := reason, cancellationJobId := job))
  }

  function End(s: SubscriptionRow, at: Option<DateTime>, reason: string, job: string, now: DateTime): SubscriptionRow {
    if s.status == Ended then s
    else
      var cancelledAt := Or(at, now);
      s.(status := Ended, cancelledAt := Some(cancelledAt),
         cancellationReason := if reason == "" then s.cancellationReason else reason,
         cancellationJobId := if job == "" then s.cancellationJobId else job,
         cancellationRequestedAt := Some(Or(s.cancellationRequestedAt, cancelledAt)))
  }

  // ---------------------------------------------------------------- operation rules

  function Complete(o: OperationRow, reference: string): Option<OperationRow> {
    if reference == "" then None
    else Some(o.(status := Completed, gatewayReference := reference, errorMessage := ""))
  }

  function Fail(o: OperationRow, message: string): OperationRow {
    o.(status := Rejected, errorMessage := if message == "" then "Falha nao detalhada." else message)
  }

  function SetAside(o: OperationRow, reference: string, message: string): OperationRow {
    o.(status := RequiresReconciliation, gatewayReference := reference,
       errorMessage := if message == "" then "Operacao marcada para reconciliacao." else message)
  }
}
