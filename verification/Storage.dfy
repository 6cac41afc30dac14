/** The database: tables with their unique keys, and the unit of work over them. */
module Storage {
  import opened BillingCalendar
  import opened Entities
  import opened EntityObjects

  datatype EventType =
    | CheckoutCreated | CheckoutPaid | CheckoutCanceled | CheckoutExpired
    | PaymentConfirmed | PaymentReceived | PaymentOverdue | PaymentRefunded | PaymentChargebackRequested
    | PaymentDeleted | SubscriptionInactivated | SubscriptionDeleted | UnknownEvent

  datatype WebhookEvent = WebhookEvent(eventType: EventType, processed: bool)

  datatype InternalEvent =
    | NotifyReceived | NotifyOverdue | NotifyRefunded | NotifyChargeback | NotifyStatusUpdated | NotifyInactivated

  /** A delivery's dedupe key, by its parts. */
  datatype DeliveryKey =
    | SubscriptionNotice(event: InternalEvent, subscription: nat, payment: Option<nat>)
    | PaymentNotice(notifiedPayment: nat, status: PaymentStatus, updatedAt: DateTime)

  datatype DeliveryContent =
    | SubscriptionContent(systemSubscriptionId: string, expiresOn: Date, paidOn: Option<Date>)
    | PaymentContent(systemPaymentId: string, value: int, paymentPaidOn: Option<Date>, checkoutLink: string)

  datatype DeliveryRow = DeliveryRow(key: DeliveryKey, targetUrl: string, content: DeliveryContent)

  /** A row's identity is its position; rows are never removed. */
  datatype Store = Store(
    payments: seq<PaymentRow>,
    subscriptions: seq<SubscriptionRow>,
    operations: seq<OperationRow>,
    events: map<string, WebhookEvent>,
    deliveries: seq<DeliveryRow>)

  // ---------------------------------------------------------------- lookups

  function FindPayment(ps: seq<PaymentRow>, providerPaymentId: string): (r: Option<nat>)
    ensures r.Some? ==> r.value < |ps| && ps[r.value].providerPaymentId == providerPaymentId
    ensures r.None? ==> forall i :: 0 <= i < |ps| ==> ps[i].providerPaymentId != providerPaymentId
  {
    if ps == [] then None
    else if ps[|ps| - 1].providerPaymentId == providerPaymentId then Some(|ps| - 1)
    else FindPayment(ps[..|ps| - 1], providerPaymentId)
  }

  function FindPaymentBySystemRef(ps: seq<PaymentRow>, systemPaymentId: string, system: System): (r: Option<nat>)
    ensures r.Some? ==> r.value < |ps| && ps[r.value].systemPaymentId == systemPaymentId && ps[r.value].fromSystem == system
    ensures r.None? ==> forall i :: 0 <= i < |ps| ==> ps[i].systemPaymentId != systemPaymentId || ps[i].fromSystem != system
  {
    if ps == [] then None
    else if ps[|ps| - 1].systemPaymentId == systemPaymentId && ps[|ps| - 1].fromSystem == system then Some(|ps| - 1)
    else FindPaymentBySystemRef(ps[..|ps| - 1], systemPaymentId, system)
  }

  /** The external reference column is not unique: several rows are an error. */
  datatype Lookup = Missing | Only(index: nat) | Several

  function FindByReference(ps: seq<PaymentRow>, reference: ExternalReference): (r: Lookup)
    ensures r.Only? ==> r.index < |ps| && ps[r.index].externalReference == reference
    ensures r.Missing? ==> forall i :: 0 <= i < |ps| ==> ps[i].externalReference != reference
    ensures r.Only? ==> forall i :: 0 <= i < |ps| && i != r.index ==> ps[i].externalReference != reference
    ensures r.Several? ==>
              exists i, j :: 0 <= i < j < |ps| && ps[i].externalReference == reference == ps[j].externalReference
  {
    if ps == [] then Missing
    else
      var rest := FindByReference(ps[..|ps| - 1], reference);
      if ps[|ps| - 1].externalReference != reference then rest
      else if rest.Missing? then Only(|ps| - 1)
      else Several
  }

  function FindSubscription(subs: seq<SubscriptionRow>, gatewaySubscriptionId: string): (r: Option<nat>)
    ensures r.Some? ==> r.value < |subs| && subs[r.value].gatewaySubscriptionId == gatewaySubscriptionId
    ensures r.None? ==> forall k :: 0 <= k < |subs| ==> subs[k].gatewaySubscriptionId != gatewaySubscriptionId
  {
    if subs == [] then None
    else if subs[|subs| - 1].gatewaySubscriptionId == gatewaySubscriptionId then Some(|subs| - 1)
    else FindSubscription(subs[..|subs| - 1], gatewaySubscriptionId)
  }

  function FindSubscriptionBySystemRef(subs: seq<SubscriptionRow>, systemSubscriptionId: string, system: System)
    : (r: Option<nat>)
    ensures r.Some? ==> r.value < |subs| && subs[r.value].systemSubscriptionId == systemSubscriptionId
                        && subs[r.value].fromSystem == system
    ensures r.None? ==> forall k :: 0 <= k < |subs| ==>
              subs[k].systemSubscriptionId != systemSubscriptionId || subs[k].fromSystem != system
  {
    if subs == [] then None
    else if subs[|subs| - 1].systemSubscriptionId == systemSubscriptionId && subs[|subs| - 1].fromSystem == system
      then Some(|subs| - 1)
    else FindSubscriptionBySystemRef(subs[..|subs| - 1], systemSubscriptionId, system)
  }

  function FindOperation(ops: seq<OperationRow>, key: OperationKey): (r: Option<nat>)
    ensures r.Some? ==> r.value < |ops| && ops[r.value].key == key
    ensures r.None? ==> forall o :: 0 <= o < |ops| ==> ops[o].key != key
  {
    if ops == [] then None
    else if ops[|ops| - 1].key == key then Some(|ops| - 1)
    else FindOperation(ops[..|ops| - 1], key)
  }

  predicate HasDelivery(ds: seq<DeliveryRow>, key: DeliveryKey) {
    exists i :: 0 <= i < |ds| && ds[i].key == key
  }

  // ---------------------------------------------------------------- unique keys

  predicate PaymentClash(ps: seq<PaymentRow>, i: nat, row: PaymentRow) {
    exists j :: 0 <= j < |ps| && j != i &&
      (ps[j].providerPaymentId == row.providerPaymentId
       || (ps[j].systemPaymentId == row.systemPaymentId && ps[j].fromSystem == row.fromSystem))
  }

  predicate SubscriptionClash(subs: seq<SubscriptionRow>, k: nat, row: SubscriptionRow) {
    exists j :: 0 <= j < |subs| && j != k &&
      (subs[j].gatewaySubscriptionId == row.gatewaySubscriptionId
       || (subs[j].systemSubscriptionId == row.systemSubscriptionId && subs[j].fromSystem == row.fromSystem))
  }

  /** Writing row `i`, or a new last row: refused if a unique key is taken, or
      if the row read back would not be a payment. */
  function WritePayment(ps: seq<PaymentRow>, i: nat, row: PaymentRow): Option<seq<PaymentRow>>
    requires i <= |ps|
  {
    if row.providerPaymentId == "" || PaymentClash(ps, i, row) then None
    else Some(if i == |ps| then ps + [row] else ps[i := row])
  }

  function WriteSubscription(subs: seq<SubscriptionRow>, k: nat, row: SubscriptionRow): Option<seq<SubscriptionRow>>
    requires k <= |subs|
  {
    if SubscriptionClash(subs, k, row) then None
    else Some(if k == |subs| then subs + [row] else subs[k := row])
  }

  ghost predicate PaymentKeys(ps: seq<PaymentRow>) {
    && (forall i, j :: 0 <= i < j < |ps| ==>
          && ps[i].providerPaymentId != ps[j].providerPaymentId
          && (ps[i].systemPaymentId != ps[j].systemPaymentId || ps[i].fromSystem != ps[j].fromSystem))
    && (forall i :: 0 <= i < |ps| ==> ps[i].providerPaymentId != "")
  }

  ghost predicate Owned(ps: seq<PaymentRow>, owners: nat) {
    forall i :: 0 <= i < |ps| && ps[i].subscription.Some? ==> ps[i].subscription.value < owners
  }

  ghost predicate SubscriptionKeys(subs: seq<SubscriptionRow>) {
    forall k, j :: 0 <= k < j < |subs| ==>
      && subs[k].gatewaySubscriptionId != subs[j].gatewaySubscriptionId
      && (subs[k].systemSubscriptionId != subs[j].systemSubscriptionId || subs[k].fromSystem != subs[j].fromSystem)
  }

  ghost predicate OperationKeys(ops: seq<OperationRow>) {
    forall o, p :: 0 <= o < p < |ops| ==> ops[o].key != ops[p].key
  }

  ghost predicate DeliveryKeys(ds: seq<DeliveryRow>) {
    forall d, e :: 0 <= d < e < |ds| ==> ds[d].key != ds[e].key
  }

  ghost predicate AllProcessed(events: map<string, WebhookEvent>) {
    forall id :: id in events ==> events[id].processed
  }

  /** What the unique keys and the foreign keys keep true of every committed state. */
  ghost predicate Valid(s: Store) {
    && PaymentKeys(s.payments)
    && Owned(s.payments, |s.subscriptions|)
    && SubscriptionKeys(s.subscriptions)
    && OperationKeys(s.operations)
    && DeliveryKeys(s.deliveries)
    && AllProcessed(s.events)
  }

  // ---------------------------------------------------------------- unit of work

  /** The events a session inserts are none that others have committed: `event_id`
      is unique. */
  predicate InsertsFreely(read: Store, written: Store, rivals: set<string>) {
    forall id :: id in written.events && id !in read.events ==> id !in rivals
  }

  /** A session: `working` is what its statements see, `committed` what it has read
      or committed, and `rivals` the events that other sessions have committed
      since. Its commits go through unless `mayFail`. */
  class UnitOfWork {
    const mayFail: bool
    var committed: Store
    var working: Store
    var rivals: set<string>

    constructor (initial: Store, mayFail: bool)
      ensures committed == working == initial && rivals == {} && this.mayFail == mayFail
    {
      this.mayFail, committed, working, rivals := mayFail, initial, initial, {};
    }

    method Commit()
      modifies this`committed, this`working
      ensures committed == working == old(working)
    {
      committed := working;
    }

    /** A commit that may fail, and fails on an event that is taken; then it
        leaves nothing committed. */
    method TryCommit() returns (landed: bool)
      modifies this`committed, this`working
      ensures landed ==> committed == working == old(working) && InsertsFreely(old(committed), committed, rivals)
      ensures !landed ==> committed == old(committed) && working == old(working)
      ensures !landed ==> mayFail || !InsertsFreely(old(committed), old(working), rivals)
    {
      var ok: bool := *;
      landed := (ok || !mayFail) && InsertsFreely(committed, working, rivals);
      if landed { Commit(); }
    }

    method Rollback()
      modifies this`committed, this`working
      ensures committed == working == old(committed)
    {
      working := committed;
    }

    method GetPayment(i: nat) returns (payment: Payment)
      requires i < |working.payments|
      ensures fresh(payment) && payment.id == Some(i) && payment.Row() == working.payments[i]
    {
      payment := new Payment(working.payments[i], Some(i));
    }

    method GetPaymentByProviderId(providerPaymentId: string) returns (payment: Payment?)
      ensures var i := FindPayment(working.payments, providerPaymentId);
              if i.None? then payment == null
              else payment != null && fresh(payment) && payment.id == i && payment.Row() == working.payments[i.value]
    {
      var i := FindPayment(working.payments, providerPaymentId);
      if i.None? { return null; }
      payment := GetPayment(i.value);
    }

    method GetPaymentBySystemRef(systemPaymentId: string, system: System) returns (payment: Payment?)
      ensures var i := FindPaymentBySystemRef(working.payments, systemPaymentId, system);
              if i.None? then payment == null
              else payment != null && fresh(payment) && payment.id == i && payment.Row() == working.payments[i.value]
    {
      var i := FindPaymentBySystemRef(working.payments, systemPaymentId, system);
      if i.None? { return null; }
      payment := GetPayment(i.value);
    }

    method GetSubscription(k: nat) returns (sub: Subscription)
      requires k < |working.subscriptions|
      ensures fresh(sub) && sub.id == Some(k) && sub.Row() == working.subscriptions[k]
    {
      sub := new Subscription(working.subscriptions[k], Some(k));
    }

    /** Both `get_by_provider_id` and its FOR UPDATE form; null is NotFoundError. */
    method GetSubscriptionByProviderId(gatewaySubscriptionId: string) returns (sub: Subscription?)
      ensures var k := FindSubscription(working.subscriptions, gatewaySubscriptionId);
              if k.None? then sub == null
              else sub != null && fresh(sub) && sub.id == k && sub.Row() == working.subscriptions[k.value]
    {
      var k := FindSubscription(working.subscriptions, gatewaySubscriptionId);
      if k.None? { return null; }
      sub := GetSubscription(k.value);
    }

    method GetOperationByKey(key: OperationKey) returns (operation: GatewayOperation?)
      ensures var o := FindOperation(working.operations, key);
              if o.None? then operation == null
              else operation != null && fresh(operation) && operation.id == o.value
                   && operation.Row() == working.operations[o.value]
    {
      var o := FindOperation(working.operations, key);
      if o.None? { return null; }
      operation := new GatewayOperation(working.operations[o.value], o.value);
    }

    method SavePayment(payment: Payment) returns (ok: bool, id: nat)
      requires payment.id.Some? ==> payment.id.value < |working.payments|
      modifies this`working
      ensures id == Or(payment.id, |old(working).payments|)
      ensures ok <==> payment.providerPaymentId != "" && !PaymentClash(old(working).payments, id, payment.Row())
      ensures PaymentKeys(old(working).payments) ==> PaymentKeys(working.payments)
      ensures var r := WritePayment(old(working).payments, id, payment.Row());
              ok == r.Some? && working == if ok then old(working).(payments := r.value) else old(working)
    {
      id := if payment.id.Some? then payment.id.value else |working.payments|;
      var r := WritePayment(working.payments, id, payment.Row());
      ok := r.Some?;
      if ok { working := working.(payments := r.value); }
    }

    method SaveSubscription(sub: Subscription) returns (ok: bool, id: nat)
      requires sub.id.Some? ==> sub.id.value < |working.subscriptions|
      modifies this`working
      ensures id == Or(sub.id, |old(working).subscriptions|)
      ensures ok <==> !SubscriptionClash(old(working).subscriptions, id, sub.Row())
      ensures SubscriptionKeys(old(working).subscriptions) ==> SubscriptionKeys(working.subscriptions)
      ensures var r := WriteSubscription(old(working).subscriptions, id, sub.Row());
              ok == r.Some? && working == if ok then old(working).(subscriptions := r.value) else old(working)
    {
      id := if sub.id.Some? then sub.id.value else |working.subscriptions|;
      var r := WriteSubscription(working.subscriptions, id, sub.Row());
      ok := r.Some?;
      if ok { working := working.(subscriptions := r.value); }
    }

    /** Inserts an operation whose key is new. */
    method AddOperation(row: OperationRow) returns (operation: GatewayOperation)
      requires FindOperation(working.operations, row.key).None?
      modifies this`working
      ensures working == old(working).(operations := old(working).operations + [row])
      ensures fresh(operation) && operation.id == |old(working).operations| && operation.Row() == row
    {
      operation := new GatewayOperation(row, |working.operations|);
      working := working.(operations := working.operations + [row]);
    }

    /** Updates an operation: the stored payload is never rewritten. */
    method SaveOperation(operation: GatewayOperation)
      requires operation.id < |working.operations|
      modifies this`working
      ensures var row := old(working).operations[operation.id];
              working == old(working).(operations := old(working).operations[operation.id :=
                row.(status := operation.status, gatewayReference := operation.gatewayReference,
                     errorMessage := operation.errorMessage)])
    {
      var row := working.operations[operation.id];
      working := working.(operations := working.operations[operation.id :=
        row.(status := operation.status, gatewayReference := operation.gatewayReference,
             errorMessage := operation.errorMessage)]);
    }
  }
}
