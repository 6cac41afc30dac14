/** Every commit the core makes, as a function on the committed state. `None` is
    an exception before the commit: the state stays as it was. */
module Transactions {
  import opened BillingCalendar
  import opened Entities
  import opened Storage
  import opened WebhookRules

  /** What `verify_status` and `get_checkout` report. */
  datatype RemoteSubscription = RemoteCanceled | RemoteActive | RemoteOther
  datatype RemoteCheckoutStatus = CheckoutIsActive | CheckoutIsPaid | CheckoutIsCanceled | CheckoutIsExpired | CheckoutIsUnknown
  datatype RemoteCheckout = RemoteCheckout(id: string, url: string, status: RemoteCheckoutStatus, reference: ExternalReference)

  datatype Transaction =
    | Webhook(payload: Payload, now: DateTime)
    | RecordNotice(notice: Notice)
    | OpenOperation(row: OperationRow)
    | CloseOperation(o: nat, row: OperationRow)
    | BeginCancellation(k: nat, system: System, reason: string, job: string, now: DateTime)
    | FinishCancellation(k: nat, o: nat, reference: string, reason: string, job: string, now: DateTime)
    | IssueCheckout(o: nat, checkout: PaymentRow)
    | IssueRenewal(o: nat, i: nat, read: PaymentRow, checkoutId: string, url: string, renewal: ExternalReference,
                   gateway: GatewayProvider, now: DateTime)
    | BindSubscription(o: nat, subscription: SubscriptionRow, invoice: PaymentRow)
    | ReconcileCreation(o: nat, remote: RemoteSubscription)
    | ReconcileCancellation(o: nat, remote: RemoteSubscription, now: DateTime)
    | ReconcileCheckout(o: nat, found: RemoteCheckout, now: DateTime)
    | ReconcilePayment(i: nat, said: GatewayStatus, date: Option<DateTime>, net: Option<int>, now: DateTime)

  // ---------------------------------------------------------------- operations

  /** Operations carry the update of status, reference and error; key and payload stay. */
  function UpdateOperation(s: Store, o: nat, row: OperationRow): Store
    requires o < |s.operations|
  {
    s.(operations := s.operations[o := s.operations[o].(status := row.status, gatewayReference := row.gatewayReference,
                                                        errorMessage := row.errorMessage)])
  }

  function CompleteOperation(s: Store, o: nat, reference: string): Option<Store>
    requires o < |s.operations|
  {
    var done := Complete(s.operations[o], reference);
    if done.None? then None else Some(UpdateOperation(s, o, done.value))
  }

  // ---------------------------------------------------------------- cancellation

  function CancelOperation(sub: SubscriptionRow, k: nat, system: System): OperationRow {
    OperationRow(CancelSubscriptionKey(system, k), sub.gateway, CancelPayload(k), InProgress, "", "")
  }

  /** The first commit of `CancelSubscription.execute`. */
  function DoBeginCancellation(s: Store, k: nat, system: System, reason: string, job: string, now: DateTime)
    : Option<Store>
  {
    if k >= |s.subscriptions| then None
    else
      var sub := s.subscriptions[k];
      var asked := RequestEnd(sub, reason, job, now);
      var open := FindOperation(s.operations, CancelSubscriptionKey(system, k));
      if asked.None? || (open.Some? && s.operations[open.value].status in {Completed, RequiresReconciliation}) then None
      else
        var subscriptions := WriteSubscription(s.subscriptions, k, asked.value);
        var operations := if open.Some? then s.operations
                          else s.operations + [CancelOperation(sub, k, system)];
        if subscriptions.None? then None
        else Some(s.(subscriptions := subscriptions.value, operations := operations))
  }

  /** `_finalize_cancellation`, and the last commit after the gateway's cancel call. */
  function DoFinishCancellation(s: Store, k: nat, o: nat, reference: string, reason: string, job: string, now: DateTime)
    : Option<Store>
  {
    if k >= |s.subscriptions| || o >= |s.operations| then None
    else
      var subscriptions := WriteSubscription(s.subscriptions, k, End(s.subscriptions[k], None, reason, job, now));
      if subscriptions.None? then None
      else CompleteOperation(s.(subscriptions := subscriptions.value), o, reference)
  }

  // ---------------------------------------------------------------- creation

  function DoIssueCheckout(s: Store, o: nat, checkout: PaymentRow): Option<Store> {
    if o >= |s.operations| || checkout.status != Pending || checkout.subscription.Some? then None
    else
      var payments := WritePayment(s.payments, |s.payments|, checkout);
      if payments.None? then None
      else CompleteOperation(s.(payments := payments.value), o, checkout.providerPaymentId)
  }

  /** The renewal rewrites the row as it was read before the gateway call. */
  function DoIssueRenewal(s: Store, o: nat, i: nat, read: PaymentRow, checkoutId: string, url: string,
                          reference: ExternalReference, gateway: GatewayProvider, now: DateTime)
    : Option<Store>
  {
    var renewed := Renew(read, checkoutId, url, reference, now);
    if o >= |s.operations| || i >= |s.payments| || renewed.None? then None
    else
      var payments := WritePayment(s.payments, i, renewed.value.(gateway := gateway));
      if payments.None? then None else CompleteOperation(s.(payments := payments.value), o, checkoutId)
  }

  /** The subscription, its first invoice and the completed operation, together. */
  function DoBindSubscription(s: Store, o: nat, sub: SubscriptionRow, invoice: PaymentRow): Option<Store> {
    if o >= |s.operations| || invoice.status != Pending || sub.status != Unpaid then None
    else
      var subscriptions := WriteSubscription(s.subscriptions, |s.subscriptions|, sub);
      var payments := WritePayment(s.payments, |s.payments|, invoice.(subscription := Some(|s.subscriptions|)));
      if subscriptions.None? || payments.None? then None
      else CompleteOperation(s.(subscriptions := subscriptions.value, payments := payments.value), o,
                             sub.gatewaySubscriptionId)
  }

  // ---------------------------------------------------------------- reconciliation

  function LocalStatus(remote: RemoteSubscription): SubscriptionStatus {
    match remote
    case RemoteCanceled => Ended
    case RemoteActive => Active
    case RemoteOther => Unpaid
  }

  /** The subscription row that reconciliation rebuilds from the stored request. */
  function RebuiltSubscription(op: OperationRow, remote: RemoteSubscription): Option<SubscriptionRow>
    requires op.payload.SubscriptionPayload?
  {
    var r := op.payload;
    if r.systemSubscriptionId == "" || op.gatewayReference == "" || r.value < 0 then None
    else Some(SubscriptionRow(r.systemSubscriptionId, op.gatewayReference, op.key.system, op.provider,
                              r.subscriptionType, r.value, LocalStatus(remote), None, r.expiresAt, None, None, "", "",
                              r.webhookLink))
  }

  predicate Awaiting(s: Store, o: nat) {
    o < |s.operations| && s.operations[o].status == RequiresReconciliation
  }

  function DoReconcileCreation(s: Store, o: nat, remote: RemoteSubscription): Option<Store> {
    if !Awaiting(s, o) || !s.operations[o].payload.SubscriptionPayload? then None
    else
      var op := s.operations[o];
      if FindSubscription(s.subscriptions, op.gatewayReference).Some? then CompleteOperation(s, o, op.gatewayReference)
      else
        var rebuilt := RebuiltSubscription(op, remote);
        var subscriptions := if rebuilt.None? then None
                             else WriteSubscription(s.subscriptions, |s.subscriptions|, rebuilt.value);
        if subscriptions.None? then None
        else CompleteOperation(s.(subscriptions := subscriptions.value), o, op.gatewayReference)
  }

  function InactivationNotice(k: nat): Notice {
    Notice(NotifyInactivated, None, Some(k))
  }

  function DoReconcileCancellation(s: Store, o: nat, remote: RemoteSubscription, now: DateTime): Option<Store> {
    if !Awaiting(s, o) || !s.operations[o].payload.CancelPayload?
       || s.operations[o].payload.subscription >= |s.subscriptions| then None
    else if remote != RemoteCanceled then Some(s)
    else
      var op := s.operations[o];
      var k := op.payload.subscription;
      var subscriptions := WriteSubscription(s.subscriptions, k,
                             End(s.subscriptions[k], Some(now), "Reconciled cancellation", "", now));
      var done := if subscriptions.None? then None
                  else CompleteOperation(s.(subscriptions := subscriptions.value), o, op.gatewayReference);
      if done.None? then None else Some(Record(done.value, BuildDelivery(done.value, InactivationNotice(k))))
  }

  function ExpectedReference(op: OperationRow): ExternalReference
    requires op.payload.CheckoutPayload?
  {
    if op.payload.externalReference != NoReference then op.payload.externalReference
    else FirstCheckout(op.key.system, op.payload.systemPaymentId)
  }

  function CheckoutStatusOf(status: RemoteCheckoutStatus): PaymentStatus
    requires status != CheckoutIsUnknown
  {
    match status
    case CheckoutIsActive => Pending
    case CheckoutIsPaid => Paid
    case CheckoutIsCanceled => Canceled
    case CheckoutIsExpired => Expired
  }

  /** The row reconciliation moves: new, renewed or as stored; and whether it must be saved. */
  function CheckoutTarget(s: Store, op: OperationRow, checkout: RemoteCheckout, now: DateTime)
    : (r: Option<(nat, PaymentRow, bool)>)
    requires op.payload.CheckoutPayload? && checkout.status != CheckoutIsUnknown
    ensures r.Some? ==> r.value.0 <= |s.payments|
  {
    var reference := ExpectedReference(op);
    var found := FindPaymentBySystemRef(s.payments, op.payload.systemPaymentId, op.key.system);
    if found.None? then
      var made := NewCheckout(op.payload.systemPaymentId, checkout.id, op.key.system, op.provider, op.payload.value,
                              checkout.url, op.payload.webhookLink, reference, now);
      if made.None? then None else Some((|s.payments|, made.value, true))
    else
      var row := s.payments[found.value];
      if row.externalReference != reference && row.status in {Expired, Canceled} then
        var renewed := Renew(row, checkout.id, checkout.url, reference, now);
        if renewed.None? then None else Some((found.value, renewed.value, true))
      else Some((found.value, row, row.status != CheckoutStatusOf(checkout.status)))
  }

  function MoveCheckout(row: PaymentRow, status: RemoteCheckoutStatus, now: DateTime): Option<PaymentRow> {
    match status
    case CheckoutIsPaid => Pay(row, Some(now), None, now)
    case CheckoutIsCanceled => Cancel(row, now)
    case CheckoutIsExpired => Expire(row, now)
    case _ => Some(row)
  }

  function DoReconcileCheckout(s: Store, o: nat, checkout: RemoteCheckout, now: DateTime): Option<Store> {
    if !Awaiting(s, o) || !s.operations[o].payload.CheckoutPayload? then None
    else
      var op := s.operations[o];
      if op.gatewayReference == "" then Some(s)
      else if checkout.reference != ExpectedReference(op) || checkout.status == CheckoutIsUnknown then None
      else
        var target := CheckoutTarget(s, op, checkout, now);
        if target.None? then None
        else
          var (i, row, save) := target.value;
          var moved := if save then MoveCheckout(row, checkout.status, now) else Some(row);
          var payments := if moved.None? then None
                          else if save then WritePayment(s.payments, i, moved.value) else Some(s.payments);
          if payments.None? then None
          else
            var written := s.(payments := payments.value);
            var notified := if checkout.status == CheckoutIsActive then written
                            else Record(written, BuildDelivery(written, Notice(NotifyStatusUpdated, Some(i), None)));
            CompleteOperation(notified, o, checkout.id)
  }

  /** `ReconcilePayment.execute`. */
  function DoReconcilePayment(s: Store, i: nat, said: GatewayStatus, date: Option<DateTime>, net: Option<int>,
                              now: DateTime)
    : Option<Store>
  {
    if i >= |s.payments| || s.payments[i].status !in {Pending, Overdue, Confirmed} then None
    else
      var applied := ApplyGatewayStatus(s.payments[i], said, date, net, now);
      if applied.None? then None
      else if applied.value.status == s.payments[i].status then Some(s)
      else
        var payments := WritePayment(s.payments, i, applied.value);
        if payments.None? then None else Some(s.(payments := payments.value))
  }

  // ---------------------------------------------------------------- all of them

  /** A request whose payload is of the kind its key names. */
  predicate WellFormed(op: OperationRow) {
    match op.key
    case CancelSubscriptionKey(_, k) => op.payload == CancelPayload(k)
    case CreateSubscriptionKey(_, id) => op.payload.SubscriptionPayload? && op.payload.systemSubscriptionId == id
    case CreateCheckoutKey(_, id) => op.payload.CheckoutPayload? && op.payload.systemPaymentId == id
    case RenewCheckoutKey(_, id, _) => op.payload.CheckoutPayload? && op.payload.systemPaymentId == id
  }

  function Attempt(s: Store, t: Transaction): Option<Store> {
    match t
    case Webhook(p, now) => Some(After(s, p, now))
    case RecordNotice(n) => if NoticeFits(s, n) then Some(Record(s, BuildDelivery(s, n))) else None
    case OpenOperation(row) =>
      if FindOperation(s.operations, row.key).Some? || !WellFormed(row) || row.status != InProgress then None
      else Some(s.(operations := s.operations + [row]))
    case CloseOperation(o, row) =>
      if o < |s.operations| && row.status in {Rejected, RequiresReconciliation} then Some(UpdateOperation(s, o, row)) else None
    case BeginCancellation(k, system, reason, job, now) => DoBeginCancellation(s, k, system, reason, job, now)
    case FinishCancellation(k, o, reference, reason, job, now) =>
      DoFinishCancellation(s, k, o, reference, reason, job, now)
    case IssueCheckout(o, checkout) => DoIssueCheckout(s, o, checkout)
    case IssueRenewal(o, i, read, checkoutId, url, reference, gateway, now) =>
      DoIssueRenewal(s, o, i, read, checkoutId, url, reference, gateway, now)
    case BindSubscription(o, sub, invoice) => DoBindSubscription(s, o, sub, invoice)
    case ReconcileCreation(o, remote) => DoReconcileCreation(s, o, remote)
    case ReconcileCancellation(o, remote, now) => DoReconcileCancellation(s, o, remote, now)
    case ReconcileCheckout(o, checkout, now) => DoReconcileCheckout(s, o, checkout, now)
    case ReconcilePayment(i, said, date, net, now) => DoReconcilePayment(s, i, said, date, net, now)
  }

  function Apply(s: Store, t: Transaction): Store {
    Or(Attempt(s, t), s)
  }

  /** The committed state after a run of transactions. */
  function Run(s: Store, ts: seq<Transaction>): Store
    decreases |ts|
  {
    if ts == [] then s else Run(Apply(s, ts[0]), ts[1..])
  }
}
