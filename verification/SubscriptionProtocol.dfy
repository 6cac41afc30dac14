/** Creating subscriptions at the gateway, as a machine: jobs, at most one at a
    time for a subscription reference, each cut at its awaits, among everything
    else that commits. */
module SubscriptionProtocol {
  import opened BillingCalendar
  import opened Entities
  import opened Storage
  import opened Transactions
  import opened TransactionLaws

  datatype SubscriptionRef = SubscriptionRef(system: System, systemSubscriptionId: string)
  datatype Order = Order(ref: SubscriptionRef, provider: GatewayProvider, value: int, subscriptionType: SubscriptionType,
                         expiresAt: DateTime, webhookLink: string)

  /** A payment as the gateway lists it. */
  datatype GatewayPayment = GatewayPayment(paymentId: string, pending: bool, value: int, paymentType: PaymentType,
                                           invoiceUrl: string)

  /** A call that raises has created nothing. */
  datatype CreateOutcome = Created(id: string) | NotCreated(message: string)

  datatype Answer = AlreadyThere(k: nat) | Refused | CreatedNow | SetAsideNow | FailedNow | Broken | Crashed

  /** Where a job stands; `Holding` and a `Recovering` that names an id have that
      id in hand. */
  datatype Place =
    | Ready(o: nat, op: OperationRow)
    | Holding(o: nat, op: OperationRow, id: string)
    | Recovering(o: nat, op: OperationRow, id: string)
    | Answered(answer: Answer)

  datatype Job = Job(order: Order, place: Place)

  /** `created` are the ids the gateway returned, each with the reference it was
      created for; `dropped` those whose job ended with the id in hand. */
  datatype World = World(store: Store, jobs: map<SubscriptionRef, Job>, created: map<string, SubscriptionRef>,
                         dropped: set<string>)

  datatype Step =
    | Foreign(t: Transaction)
    | Start(order: Order, lands: bool)
    | CallCreate(ref: SubscriptionRef, outcome: CreateOutcome)
    | Conclude(ref: SubscriptionRef, fetched: Option<seq<GatewayPayment>>, lands: bool, message: string, now: DateTime)
    | Recover(ref: SubscriptionRef, lands: bool)
    | Crash(ref: SubscriptionRef)

  function KeyFor(ref: SubscriptionRef): OperationKey {
    CreateSubscriptionKey(ref.system, ref.systemSubscriptionId)
  }

  function NewOperation(order: Order): OperationRow {
    OperationRow(KeyFor(order.ref), order.provider,
                 SubscriptionPayload(order.ref.systemSubscriptionId, order.value, order.subscriptionType, order.expiresAt,
                                     order.webhookLink),
                 InProgress, "", "")
  }

  /** A failure without a remote reference has created nothing and may be retried. */
  predicate Retryable(op: OperationRow) {
    op.status == Rejected && op.gatewayReference == ""
  }

  predicate IsCreation(s: Store, o: nat) {
    o < |s.operations| && s.operations[o].key.CreateSubscriptionKey?
  }

  /** Everything but the creation jobs' own commits; a renewal rewrites the payment
      it read, however long ago. */
  predicate MayCommit(s: Store, t: Transaction) {
    match t
    case OpenOperation(row) => !row.key.CreateSubscriptionKey?
    case BindSubscription(_, _, _) => false
    case CloseOperation(o, _) => !IsCreation(s, o)
    case IssueCheckout(o, _) => !IsCreation(s, o)
    case IssueRenewal(o, _, _, _, _, _, _, _) => !IsCreation(s, o) && RenewsOwnRow(s, t)
    case FinishCancellation(_, o, _, _, _, _) => !IsCreation(s, o)
    case _ => true
  }

  predicate Idle(w: World, ref: SubscriptionRef) {
    ref in w.jobs ==> w.jobs[ref].place.Answered?
  }

  /** An id no row, operation or earlier call has. */
  predicate NewId(w: World, id: string) {
    && id != "" && id !in w.created
    && (forall k :: 0 <= k < |w.store.subscriptions| ==> w.store.subscriptions[k].gatewaySubscriptionId != id)
    && (forall o :: 0 <= o < |w.store.operations| ==> w.store.operations[o].gatewayReference != id)
  }

  predicate Enabled(w: World, step: Step) {
    match step
    case Foreign(t) => MayCommit(w.store, t)
    case Start(order, _) => Idle(w, order.ref)
    case CallCreate(ref, outcome) => ref in w.jobs && w.jobs[ref].place.Ready? && (outcome.Created? ==> NewId(w, outcome.id))
    case Conclude(ref, _, _, _, _) => ref in w.jobs && w.jobs[ref].place.Holding?
    case Recover(ref, _) => ref in w.jobs && w.jobs[ref].place.Recovering?
    case Crash(ref) => !Idle(w, ref)
  }

  // ---------------------------------------------------------------- what a step does

  function Moved(w: World, order: Order, place: Place): World {
    w.(jobs := w.jobs[order.ref := Job(order, place)])
  }

  /** `execute` up to the gateway call. */
  function DoStart(w: World, order: Order, lands: bool): World {
    var existing := FindSubscriptionBySystemRef(w.store.subscriptions, order.ref.systemSubscriptionId, order.ref.system);
    if existing.Some? then Moved(w, order, Answered(AlreadyThere(existing.value)))
    else
      var found := FindOperation(w.store.operations, KeyFor(order.ref));
      if found.Some? then
        var op := w.store.operations[found.value];
        if Retryable(op) then Moved(w, order, Ready(found.value, op)) else Moved(w, order, Answered(Refused))
      else if !lands then Moved(w, order, Answered(Broken))
      else
        var op := NewOperation(order);
        Moved(w.(store := w.store.(operations := w.store.operations + [op])), order, Ready(|w.store.operations|, op))
  }

  function DoCall(w: World, ref: SubscriptionRef, outcome: CreateOutcome): World
    requires Enabled(w, CallCreate(ref, outcome))
  {
    var Job(order, Ready(o, op)) := w.jobs[ref];
    match outcome
    case Created(id) => Moved(w.(created := w.created[id := ref]), order, Holding(o, op, id))
    case NotCreated(message) => Moved(w, order, Recovering(o, Fail(op, message), ""))
  }

  /** The first pending payment, or else the first. */
  function Chosen(payments: seq<GatewayPayment>): Option<GatewayPayment> {
    var pending := FirstPending(payments);
    if pending.Some? || payments == [] then pending else Some(payments[0])
  }

  function FirstPending(payments: seq<GatewayPayment>): Option<GatewayPayment>
    decreases |payments|
  {
    if payments == [] then None
    else if payments[0].pending then Some(payments[0])
    else FirstPending(payments[1..])
  }

  function NewSubscription(order: Order, id: string): Option<SubscriptionRow> {
    if order.ref.systemSubscriptionId == "" || id == "" || order.value < 0 then None
    else Some(SubscriptionRow(order.ref.systemSubscriptionId, id, order.ref.system, order.provider, order.subscriptionType,
                              order.value, Unpaid, None, order.expiresAt, None, None, "", "", order.webhookLink))
  }

  /** The commit that binds the subscription, if it goes through. */
  function Bound(s: Store, order: Order, o: nat, id: string, fetched: Option<seq<GatewayPayment>>, now: DateTime): Option<Store> {
    var sub := NewSubscription(order, id);
    var chosen := if fetched.Some? then Chosen(fetched.value) else None;
    if sub.None? || chosen.None? then None
    else
      var p := chosen.value;
      var invoice := NewInvoice(order.ref.systemSubscriptionId + ":" + p.paymentId, p.paymentId, sub.value,
                                |s.subscriptions|, p.value, p.paymentType, p.invoiceUrl, now);
      if invoice.None? then None else DoBindSubscription(s, o, sub.value, invoice.value)
  }

  function DoConclude(w: World, ref: SubscriptionRef, fetched: Option<seq<GatewayPayment>>, lands: bool, message: string,
                      now: DateTime): World
    requires Enabled(w, Conclude(ref, fetched, lands, message, now))
  {
    var Job(order, Holding(o, op, id)) := w.jobs[ref];
    var bound := Bound(w.store, order, o, id, fetched, now);
    if lands && bound.Some? then Moved(w.(store := bound.value), order, Answered(CreatedNow))
    else Moved(w, order, Recovering(o, SetAside(op, id, message), id))
  }

  function Drop(w: World, id: string): World {
    if id == "" then w else w.(dropped := w.dropped + {id})
  }

  function DoRecover(w: World, ref: SubscriptionRef, lands: bool): World
    requires Enabled(w, Recover(ref, lands))
  {
    var Job(order, Recovering(o, op, id)) := w.jobs[ref];
    if !lands || o >= |w.store.operations| then Moved(Drop(w, id), order, Answered(Broken))
    else Moved(w.(store := UpdateOperation(w.store, o, op)), order, Answered(if id == "" then FailedNow else SetAsideNow))
  }

  /** The id a job holds and has not put on record. */
  function InHand(place: Place): string {
    match place
    case Holding(_, _, id) => id
    case Recovering(_, _, id) => id
    case _ => ""
  }

  function Do(w: World, step: Step): World
    requires Enabled(w, step)
  {
    match step
    case Foreign(t) => w.(store := Apply(w.store, t))
    case Start(order, lands) => DoStart(w, order, lands)
    case CallCreate(ref, outcome) => DoCall(w, ref, outcome)
    case Conclude(ref, fetched, lands, message, now) => DoConclude(w, ref, fetched, lands, message, now)
    case Recover(ref, lands) => DoRecover(w, ref, lands)
    case Crash(ref) => Moved(Drop(w, InHand(w.jobs[ref].place)), w.jobs[ref].order, Answered(Crashed))
  }

  predicate Possible(w: World, steps: seq<Step>)
    decreases |steps|
  {
    steps == [] || (Enabled(w, steps[0]) && Possible(Do(w, steps[0]), steps[1..]))
  }

  function Steps(w: World, steps: seq<Step>): World
    requires Possible(w, steps)
    decreases |steps|
  {
    if steps == [] then w else Steps(Do(w, steps[0]), steps[1..])
  }
}
