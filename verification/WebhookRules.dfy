/** What one webhook does to the committed state: the specification of
    `ProcessWebhookService` and of the delivery the worker records after it. */
module WebhookRules {
  import opened BillingCalendar
  import opened Entities
  import opened Storage
  import opened EventIds

  /** A normalised webhook; absent texts are "", an absent or zero value is 0. */
  datatype Payload = Payload(
    provider: GatewayProvider,
    event: EventType,
    sourceEventId: string,
    paymentId: string,
    subscription: string,
    status: Option<GatewayStatus>,
    value: int,
    netValue: Option<int>,
    paymentDate: Option<DateTime>,
    externalReference: ExternalReference,
    billingType: Option<PaymentType>)

  datatype Notice = Notice(event: InternalEvent, payment: Option<nat>, subscription: Option<nat>)

  /** A committed transaction, an exception before the commit, or a return without one. */
  datatype Reply = Commit(store: Store, notice: Option<Notice>) | Raise | Skip

  function MarkProcessed(s: Store, id: string, event: EventType): Store {
    s.(events := s.events[id := if id in s.events then s.events[id].(processed := true) else WebhookEvent(event, true)])
  }

  /** The status words a payload carries, or those its event name ends in. */
  function StatusOf(p: Payload): GatewayStatus {
    if p.status.Some? then p.status.value
    else match p.event
      case PaymentConfirmed => SaysConfirmed
      case PaymentReceived => SaysReceived
      case PaymentOverdue => SaysOverdue
      case PaymentRefunded => SaysRefunded
      case PaymentChargebackRequested => SaysChargeback
      case PaymentDeleted => SaysDeleted
      case _ => SaysOther
  }

  function DayOf(t: Option<DateTime>): Option<DateTime> {
    if t.None? then None else Some(Midnight(t.value))
  }

  // ---------------------------------------------------------------- payments outside a subscription

  function HandleStandalone(s: Store, p: Payload, id: string, now: DateTime): Reply {
    var byId := FindPayment(s.payments, p.paymentId);
    var byReference := if byId.Some? then Only(byId.value)
                       else if p.externalReference == NoReference then Missing
                       else FindByReference(s.payments, p.externalReference);
    match byReference
    case Several => Raise
    case Missing => Commit(MarkProcessed(s, id, p.event), None)
    case Only(i) =>
      var row := s.payments[i].(providerPaymentId := p.paymentId);
      var applied := ApplyGatewayStatus(row, StatusOf(p), DayOf(p.paymentDate), p.netValue, now);
      if applied.None? then Raise
      else if applied.value.status == row.status then Commit(MarkProcessed(s, id, p.event), None)
      else
        var payments := WritePayment(s.payments, i, applied.value);
        if payments.None? then Raise
        else Commit(MarkProcessed(s.(payments := payments.value), id, p.event),
                    Some(Notice(NotifyStatusUpdated, Some(i), None)))
  }

  // ---------------------------------------------------------------- subscription payments

  /** `_find_subscription_payment`: the invoice's row, or the provisional row it takes over. */
  function Locate(ps: seq<PaymentRow>, owner: nat, gatewaySubscriptionId: string, paymentId: string)
    : (r: Option<(nat, PaymentRow)>)
    ensures r.Some? ==> r.value.0 < |ps|
  {
    var found := FindPayment(ps, paymentId);
    if found.Some? then Some((found.value, ps[found.value]))
    else
      var provisional := FindPayment(ps, gatewaySubscriptionId);
      if provisional.Some? && ps[provisional.value].subscription == Some(owner) && ps[provisional.value].status == Pending
      then Some((provisional.value, ps[provisional.value].(providerPaymentId := paymentId)))
      else None
  }

  /** The row a payment webhook works on, made new if nothing is found. */
  function Target(s: Store, k: nat, p: Payload, now: DateTime): (r: Option<(nat, PaymentRow)>)
    requires k < |s.subscriptions|
    ensures r.Some? ==> r.value.0 <= |s.payments|
  {
    var sub := s.subscriptions[k];
    var located := Locate(s.payments, k, sub.gatewaySubscriptionId, p.paymentId);
    if located.Some? then located
    else
      var invoice := NewInvoice(sub.systemSubscriptionId + ":" + p.paymentId, p.paymentId, sub, k,
                                if p.value != 0 then p.value else sub.value, Or(p.billingType, CreditCard), "", now);
      if invoice.None? then None else Some((|s.payments|, invoice.value))
  }

  function PaymentDateOf(p: Payload, row: PaymentRow): Option<DateTime> {
    if p.paymentDate.Some? then p.paymentDate else row.paidDate
  }

  /** Writes the extended subscription, then the payment. */
  function WriteBoth(s: Store, k: nat, sub: SubscriptionRow, i: nat, row: PaymentRow): Option<Store>
    requires k < |s.subscriptions| && i <= |s.payments|
  {
    var subscriptions := WriteSubscription(s.subscriptions, k, sub);
    var payments := WritePayment(s.payments, i, row);
    if subscriptions.None? || payments.None? then None
    else Some(s.(subscriptions := subscriptions.value, payments := payments.value))
  }

  /** The subscription after a payment of `date`: extended unless that date was the last one. */
  function Extended(sub: SubscriptionRow, date: DateTime): Option<SubscriptionRow> {
    if sub.lastPaidDate == Some(date) then Some(sub) else Extend(sub, date)
  }

  function HandleReceived(s: Store, p: Payload, id: string, now: DateTime): Reply {
    var found := FindSubscription(s.subscriptions, p.subscription);
    if found.None? then Raise
    else
      var k := found.value;
      var located := Locate(s.payments, k, s.subscriptions[k].gatewaySubscriptionId, p.paymentId);
      if located.Some? && located.value.1.status == Paid then
        Commit(MarkProcessed(s, id, p.event), Some(Notice(NotifyReceived, Some(located.value.0), Some(k))))
      else
        var target := Target(s, k, p, now);
        if target.None? then Raise
        else
          var (i, row) := target.value;
          var date := PaymentDateOf(p, row);
          if date.None? then Raise
          else
            var paid := Pay(row, date, p.netValue, now);
            var sub := Extended(s.subscriptions[k], date.value);
            if paid.None? || sub.None? then Raise
            else
              var written := WriteBoth(s, k, sub.value, i, paid.value);
              if written.None? then Raise
              else Commit(MarkProcessed(written.value, id, p.event), Some(Notice(NotifyReceived, Some(i), Some(k))))
  }

  function HandleConfirmed(s: Store, p: Payload, id: string, now: DateTime): Reply {
    var found := FindSubscription(s.subscriptions, p.subscription);
    if found.None? then Raise
    else
      var k := found.value;
      var target := Target(s, k, p, now);
      if target.None? then Raise
      else
        var (i, row) := target.value;
        var date := PaymentDateOf(p, row);
        if date.None? then Raise
        else
          var confirmed := Confirm(row, date, p.netValue, now);
          if confirmed.None? then Raise
          else
            var card := confirmed.value.paymentType == CreditCard;
            var sub := if card then Extended(s.subscriptions[k], date.value) else Some(s.subscriptions[k]);
            var notice := Some(Notice(if card then NotifyReceived else NotifyStatusUpdated, Some(i), Some(k)));
            if sub.None? then Raise
            else if confirmed.value.status == row.status && sub.value == s.subscriptions[k] then
              Commit(MarkProcessed(s, id, p.event), notice)
            else
              var written := WriteBoth(s, k, sub.value, i, confirmed.value);
              if written.None? then Raise else Commit(MarkProcessed(written.value, id, p.event), notice)
  }

  function HandleDeleted(s: Store, p: Payload, id: string, now: DateTime): Reply {
    var found := FindPayment(s.payments, p.paymentId);
    if found.Some? && s.payments[found.value].status in {Pending, Overdue, Confirmed} then
      var canceled := Cancel(s.payments[found.value], now);
      var payments := WritePayment(s.payments, found.value, canceled.value);
      if payments.None? then Raise
      else Commit(MarkProcessed(s.(payments := payments.value), id, p.event), None)
    else Commit(MarkProcessed(s, id, p.event), None)
  }

  function LifecycleNotice(event: EventType): InternalEvent
    requires event in {PaymentOverdue, PaymentRefunded, PaymentChargebackRequested}
  {
    match event
    case PaymentOverdue => NotifyOverdue
    case PaymentRefunded => NotifyRefunded
    case _ => NotifyChargeback
  }

  function HandleLifecycle(s: Store, p: Payload, id: string, now: DateTime): Reply
    requires p.event in {PaymentOverdue, PaymentRefunded, PaymentChargebackRequested}
  {
    var k := FindSubscription(s.subscriptions, p.subscription);
    var i := if p.paymentId == "" then None else FindPayment(s.payments, p.paymentId);
    if k.None? then Raise
    else if i.None? then Commit(MarkProcessed(s, id, p.event), None)
    else
      var row := s.payments[i.value];
      if StatusOf(p) == SaysOverdue && row.status in {Paid, Canceled, Refunded, Failed} then
        Commit(MarkProcessed(s, id, p.event), None)
      else
        var applied := ApplyGatewayStatus(row, StatusOf(p), DayOf(p.paymentDate), p.netValue, now);
        if applied.None? then Raise
        else if applied.value.status == row.status then Commit(MarkProcessed(s, id, p.event), None)
        else
          var payments := WritePayment(s.payments, i.value, applied.value);
          if payments.None? then Raise
          else Commit(MarkProcessed(s.(payments := payments.value), id, p.event),
                      Some(Notice(LifecycleNotice(p.event), i, k)))
  }

  function HandleInactivated(s: Store, p: Payload, id: string, now: DateTime): Reply {
    if p.subscription == "" then Raise
    else
      var k := FindSubscription(s.subscriptions, p.subscription);
      if k.None? then Raise
      else
        var notice := Some(Notice(NotifyInactivated, None, k));
        if s.subscriptions[k.value].status == Ended then Commit(MarkProcessed(s, id, p.event), notice)
        else
          var subscriptions := WriteSubscription(s.subscriptions, k.value,
                                                 End(s.subscriptions[k.value], None, "", "", now));
          if subscriptions.None? then Raise
          else Commit(MarkProcessed(s.(subscriptions := subscriptions.value), id, p.event), notice)
  }

  // ---------------------------------------------------------------- checkouts

  predicate IsCheckoutEvent(e: EventType) {
    e in {CheckoutCreated, CheckoutPaid, CheckoutCanceled, CheckoutExpired}
  }

  function HandleCheckout(s: Store, p: Payload, id: string, now: DateTime): Reply
    requires IsCheckoutEvent(p.event)
  {
    var byId := if p.paymentId == "" then None else FindPayment(s.payments, p.paymentId);
    var byReference := if byId.Some? then Only(byId.value)
                       else if p.externalReference == NoReference then Missing
                       else FindByReference(s.payments, p.externalReference);
    match byReference
    case Several => Raise
    case Missing => Commit(MarkProcessed(s, id, p.event), None)
    case Only(i) =>
      var row := s.payments[i];
      if p.event == CheckoutCreated || row.status !in {Pending, Overdue} then
        Commit(MarkProcessed(s, id, p.event), None)
      else
        var moved := match p.event
                     case CheckoutPaid => Pay(row, p.paymentDate, p.netValue, now)
                     case CheckoutCanceled => Cancel(row, now)
                     case _ => Expire(row, now);
        var payments := if moved.None? then None else WritePayment(s.payments, i, moved.value);
        if payments.None? then Raise
        else Commit(MarkProcessed(s.(payments := payments.value), id, p.event),
                    Some(Notice(NotifyStatusUpdated, Some(i), None)))
  }

  // ---------------------------------------------------------------- dispatch

  function IdOf(p: Payload): Option<string> {
    EventId(p.provider, p.event, p.sourceEventId, p.paymentId, p.subscription)
  }

  /** `ProcessWebhookService.execute`. */
  function Handle(s: Store, p: Payload, now: DateTime): Reply {
    if IdOf(p).None? then Raise
    else
      var id := IdOf(p).value;
      if id in s.events && s.events[id].processed then Skip
      else if IsCheckoutEvent(p.event) then HandleCheckout(s, p, id, now)
      else if p.paymentId != "" && p.subscription == "" then HandleStandalone(s, p, id, now)
      else match p.event
        case PaymentOverdue | PaymentRefunded | PaymentChargebackRequested =>
          if p.subscription != "" then HandleLifecycle(s, p, id, now) else Commit(MarkProcessed(s, id, p.event), None)
        case UnknownEvent => Commit(MarkProcessed(s, id, p.event), None)
        case PaymentReceived =>
          if p.subscription != "" then HandleReceived(s, p, id, now) else Commit(MarkProcessed(s, id, p.event), None)
        case PaymentConfirmed => if p.subscription != "" then HandleConfirmed(s, p, id, now) else Skip
        case PaymentDeleted => if p.subscription != "" then HandleDeleted(s, p, id, now) else Skip
        case _ => HandleInactivated(s, p, id, now)
  }

  /** The state a webhook transaction leaves committed. */
  function After(s: Store, p: Payload, now: DateTime): Store {
    var r := Handle(s, p, now);
    if r.Commit? then r.store else s
  }

  // ---------------------------------------------------------------- deliveries

  datatype Draft = NoDelivery | Draft(row: DeliveryRow) | MissingPaymentId | MissingPaidDate

  predicate NoticeFits(s: Store, n: Notice) {
    && (n.payment.Some? ==> n.payment.value < |s.payments|)
    && (n.subscription.Some? ==> n.subscription.value < |s.subscriptions|)
  }

  /** `_build_internal_delivery` and `_build_payment_internal_delivery`. */
  function BuildDelivery(s: Store, n: Notice): Draft
    requires NoticeFits(s, n)
  {
    if n.subscription.None? && n.payment.Some? then
      var p := s.payments[n.payment.value];
      if p.webhookLink == "" then NoDelivery
      else Draft(DeliveryRow(PaymentNotice(n.payment.value, p.status, p.updatedAt), p.webhookLink,
                             PaymentContent(p.systemPaymentId, p.value, DateOf(p.paidDate), p.checkoutLink)))
    else if n.subscription.None? then NoDelivery
    else
      var sub := s.subscriptions[n.subscription.value];
      if sub.webhookLink == "" then NoDelivery
      else if n.event == NotifyReceived && n.payment.None? then MissingPaymentId
      else if n.event == NotifyReceived && s.payments[n.payment.value].paidDate.None? then MissingPaidDate
      else Draft(DeliveryRow(SubscriptionNotice(n.event, n.subscription.value, n.payment), sub.webhookLink,
                             SubscriptionContent(sub.systemSubscriptionId, sub.expiresAt.date,
                                if n.event == NotifyReceived then DateOf(s.payments[n.payment.value].paidDate) else None)))
  }

  function DateOf(t: Option<DateTime>): Option<Date> {
    if t.None? then None else Some(t.value.date)
  }

  /** Records a delivery unless one with its key exists. */
  function Record(s: Store, d: Draft): Store {
    if d.Draft? && !HasDelivery(s.deliveries, d.row.key) then s.(deliveries := s.deliveries + [d.row]) else s
  }

  /** What the worker leaves after one webhook: its commit, and the delivery's. */
  function Deliver(s: Store, p: Payload, now: DateTime): Store {
    var r := Handle(s, p, now);
    if r.Commit? && r.notice.Some? && NoticeFits(r.store, r.notice.value)
    then Record(r.store, BuildDelivery(r.store, r.notice.value))
    else After(s, p, now)
  }
}
