/** Issuing checkouts at the gateway, as a machine: jobs, at most one at a time
    for a payment reference, each cut at its awaits, among everything else that
    commits. */
module CheckoutProtocol {
  import opened BillingCalendar
  import opened Entities
  import opened Storage
  import opened Transactions

  datatype PaymentRef = PaymentRef(system: System, systemPaymentId: string)
  datatype Order = Order(ref: PaymentRef, value: int, webhookLink: string, provider: GatewayProvider)

  /** What a failed call raises. */
  datatype GatewayException =
    | Unsent(message: string)
    | RequestFailed(message: string)
    | TimedOut(message: string)
    | StatusError(statusCode: Option<int>, message: string)

  /** `_has_uncertain_gateway_outcome`. */
  predicate IsUncertain(e: GatewayException) {
    match e
    case Unsent(_) => false
    case RequestFailed(_) => true
    case TimedOut(_) => true
    case StatusError(code, _) => code.Some? && code.value >= 500
  }

  datatype CreateOutcome = Created(checkoutId: string, url: string) | Raised(exception: GatewayException)

  /** A payment read before the gateway call, by its position. */
  datatype Existing = Nothing | Stored(i: nat, row: PaymentRow)

  datatype Answer = AlreadyIssued(i: nat) | Refused | IssuedNow | SetAsideNow | FailedNow | Broken | Crashed

  datatype Place =
    | Ready(o: nat, op: OperationRow, existing: Existing)
    | Issued(o: nat, op: OperationRow, existing: Existing, checkoutId: string, url: string)
    | Recovering(o: nat, op: OperationRow)
    | Answered(answer: Answer)

  datatype Job = Job(order: Order, place: Place)

  datatype World = World(store: Store, jobs: map<PaymentRef, Job>)

  datatype Step =
    | Foreign(t: Transaction)
    | Start(order: Order, lands: bool)
    | CallCreate(ref: PaymentRef, outcome: CreateOutcome)
    | Conclude(ref: PaymentRef, lands: bool, message: string, now: DateTime)
    | Recover(ref: PaymentRef, lands: bool)
    | Crash(ref: PaymentRef)

  function ExistingOf(s: Store, ref: PaymentRef): (r: Existing)
    ensures r.Stored? ==> r.i < |s.payments| && s.payments[r.i] == r.row
    ensures r.Stored? ==> r.row.systemPaymentId == ref.systemPaymentId && r.row.fromSystem == ref.system
  {
    var i := FindPaymentBySystemRef(s.payments, ref.systemPaymentId, ref.system);
    if i.None? then Nothing else Stored(i.value, s.payments[i.value])
  }

  /** A first issue, or a renewal marked by when the payment was last updated. */
  function KeyFor(ref: PaymentRef, existing: Existing): OperationKey {
    if existing.Stored? then RenewCheckoutKey(ref.system, ref.systemPaymentId, existing.row.updatedAt)
    else CreateCheckoutKey(ref.system, ref.systemPaymentId)
  }

  function ReferenceFor(ref: PaymentRef, existing: Existing): ExternalReference {
    if existing.Stored? then RenewedCheckout(ref.system, ref.systemPaymentId, existing.row.updatedAt)
    else FirstCheckout(ref.system, ref.systemPaymentId)
  }

  function NewOperation(order: Order, existing: Existing): OperationRow {
    OperationRow(KeyFor(order.ref, existing), order.provider,
                 CheckoutPayload(order.ref.systemPaymentId, order.value, order.webhookLink, ReferenceFor(order.ref, existing)),
                 InProgress, "", "")
  }

  /** The one kind of stored operation that another call may take up. */
  predicate Retryable(op: OperationRow) {
    op.status == Rejected && op.gatewayReference == ""
  }

  predicate IsCheckoutKey(key: OperationKey) {
    key.CreateCheckoutKey? || key.RenewCheckoutKey?
  }

  /** The payment a checkout operation is for. */
  predicate KeyOf(ref: PaymentRef, key: OperationKey) {
    match key
    case CreateCheckoutKey(system, id) => ref == PaymentRef(system, id)
    case RenewCheckoutKey(system, id, _) => ref == PaymentRef(system, id)
    case _ => false
  }

  /** Everything but the checkout jobs' own commits. */
  predicate MayCommit(s: Store, t: Transaction) {
    match t
    case OpenOperation(row) => !IsCheckoutKey(row.key)
    case IssueCheckout(_, _) => false
    case IssueRenewal(_, _, _, _, _, _, _, _) => false
    case CloseOperation(o, _) => !IsCheckoutOperation(s, o)
    case BindSubscription(o, _, _) => !IsCheckoutOperation(s, o)
    case FinishCancellation(_, o, _, _, _, _) => !IsCheckoutOperation(s, o)
    case _ => true
  }

  predicate IsCheckoutOperation(s: Store, o: nat) {
    o < |s.operations| && IsCheckoutKey(s.operations[o].key)
  }

  predicate Idle(w: World, ref: PaymentRef) {
    ref in w.jobs ==> w.jobs[ref].place.Answered?
  }

  /** A gateway names every checkout it creates. */
  predicate Enabled(w: World, step: Step) {
    match step
    case Foreign(t) => MayCommit(w.store, t)
    case Start(order, _) => Idle(w, order.ref)
    case CallCreate(ref, outcome) => ref in w.jobs && w.jobs[ref].place.Ready? && (outcome.Created? ==> outcome.checkoutId != "")
    case Conclude(ref, _, _, _) => ref in w.jobs && w.jobs[ref].place.Issued?
    case Recover(ref, _) => ref in w.jobs && w.jobs[ref].place.Recovering?
    case Crash(ref) => !Idle(w, ref)
  }

  // ---------------------------------------------------------------- what a step does

  function Moved(w: World, order: Order, place: Place): World {
    w.(jobs := w.jobs[order.ref := Job(order, place)])
  }

  /** `execute` up to the gateway call. A retried operation is not written. */
  function DoStart(w: World, order: Order, lands: bool): World {
    var existing := ExistingOf(w.store, order.ref);
    if existing.Stored? && !Renewable(existing.row) then Moved(w, order, Answered(AlreadyIssued(existing.i)))
    else
      var found := FindOperation(w.store.operations, KeyFor(order.ref, existing));
      if found.Some? then
        var op := w.store.operations[found.value];
        if Retryable(op) then Moved(w, order, Ready(found.value, op, existing)) else Moved(w, order, Answered(Refused))
      else if !lands then Moved(w, order, Answered(Broken))
      else
        var op := NewOperation(order, existing);
        Moved(w.(store := w.store.(operations := w.store.operations + [op])), order,
              Ready(|w.store.operations|, op, existing))
  }

  function DoCall(w: World, ref: PaymentRef, outcome: CreateOutcome): World
    requires Enabled(w, CallCreate(ref, outcome))
  {
    var Job(order, Ready(o, op, existing)) := w.jobs[ref];
    match outcome
    case Created(id, url) => Moved(w, order, Issued(o, op, existing, id, url))
    case Raised(e) =>
      Moved(w, order, Recovering(o, if IsUncertain(e) then SetAside(op, "", e.message) else Fail(op, e.message)))
  }

  /** The commit after the gateway created the checkout, if it goes through. */
  function Concluded(s: Store, order: Order, at: Place, now: DateTime): Option<Store>
    requires at.Issued?
  {
    var reference := ReferenceFor(order.ref, at.existing);
    if at.existing.Stored? then
      DoIssueRenewal(s, at.o, at.existing.i, at.existing.row, at.checkoutId, at.url, reference, order.provider, now)
    else
      var made := NewCheckout(order.ref.systemPaymentId, at.checkoutId, order.ref.system, order.provider, order.value,
                              at.url, order.webhookLink, reference, now);
      if made.None? then None else DoIssueCheckout(s, at.o, made.value)
  }

  function DoConclude(w: World, ref: PaymentRef, lands: bool, message: string, now: DateTime): World
    requires Enabled(w, Conclude(ref, lands, message, now))
  {
    var Job(order, at) := w.jobs[ref];
    var done := Concluded(w.store, order, at, now);
    if lands && done.Some? then Moved(w.(store := done.value), order, Answered(IssuedNow))
    else Moved(w, order, Recovering(at.o, SetAside(at.op, at.checkoutId, message)))
  }

  function DoRecover(w: World, ref: PaymentRef, lands: bool): World
    requires Enabled(w, Recover(ref, lands))
  {
    var Job(order, at) := w.jobs[ref];
    if !lands || at.o >= |w.store.operations| then Moved(w, order, Answered(Broken))
    else Moved(w.(store := UpdateOperation(w.store, at.o, at.op)), order,
               Answered(if at.op.status == Rejected then FailedNow else SetAsideNow))
  }

  function Do(w: World, step: Step): World
    requires Enabled(w, step)
  {
    match step
    case Foreign(t) => w.(store := Apply(w.store, t))
    case Start(order, lands) => DoStart(w, order, lands)
    case CallCreate(ref, outcome) => DoCall(w, ref, outcome)
    case Conclude(ref, lands, message, now) => DoConclude(w, ref, lands, message, now)
    case Recover(ref, lands) => DoRecover(w, ref, lands)
    case Crash(ref) => Moved(w, w.jobs[ref].order, Answered(Crashed))
  }

  predicate Possible(w: World, steps: seq<Step>)
    decreases |steps|
  {
    steps == [] || (Enabled(w, steps[0]) && Possible(Do(w, steps[0]), steps[1..]))
  }

  function Steps(w: World, steps: seq<Step>): World
    requires Possible(w, steps)
    decreases |steps|
  {
    if steps == [] then w else Steps(Do(w, steps[0]), steps[1..])
  }
}
