/** What each step of a checkout job leaves, told from the order, the gateway's
    answers and the rows before. */
module CheckoutOutcomes {
  import opened BillingCalendar
  import opened Entities
  import opened RowMeanings
  import opened Storage
  import opened TransactionLaws
  import opened CheckoutProtocol
  import opened CheckoutLaws

  // ---------------------------------------------------------------- the rows of an order

  /** The order's payment, issued for the first time: what was ordered, under the
      gateway's id and link. */
  predicate AsFirstIssued(row: PaymentRow, order: Order, id: string, url: string, now: DateTime) {
    && Untouched(row, now) && HasReferenceOf(row, order.ref)
    && row.providerPaymentId == id && row.checkoutLink == url
    && row.externalReference == FirstCheckout(order.ref.system, order.ref.systemPaymentId)
    && row.gateway == order.provider && row.value == order.value && row.webhookLink == order.webhookLink
    && row.paymentType == Undefined && row.subscription == None
  }

  /** The order's payment, renewed: the gateway's id and link, a reference of its own,
      pending at the order's gateway, and all else as it was read. */
  predicate AsRenewed(read: PaymentRow, row: PaymentRow, order: Order, id: string, url: string, now: DateTime) {
    && row.gateway == order.provider
    && RenewedAs(read, row.(gateway := read.gateway), id, url,
                 RenewedCheckout(order.ref.system, order.ref.systemPaymentId, read.updatedAt), now)
  }

  /** One commit: the payment issued or renewed, and the operation completed with the
      checkout's id; nothing else. */
  predicate IssuedAs(s: Store, t: Store, order: Order, at: Place, now: DateTime)
    requires at.Issued?
  {
    && at.o < |s.operations| == |t.operations|
    && CompletedWith(s.operations[at.o], t.operations[at.o], at.checkoutId)
    && t == s.(payments := t.payments, operations := s.operations[at.o := t.operations[at.o]])
    && match at.existing
       case Nothing =>
         && |t.payments| == |s.payments| + 1 && t.payments[..|s.payments|] == s.payments
         && AsFirstIssued(t.payments[|s.payments|], order, at.checkoutId, at.url, now)
       case Stored(i, read) =>
         && i < |s.payments| == |t.payments| && t.payments == s.payments[i := t.payments[i]]
         && AsRenewed(read, t.payments[i], order, at.checkoutId, at.url, now)
  }

  // ---------------------------------------------------------------- when it may be issued

  /** No other payment has the checkout's id or the order's reference. */
  predicate FreeBut(s: Store, order: Order, id: string, but: nat) {
    forall j :: 0 <= j < |s.payments| && j != but ==>
      s.payments[j].providerPaymentId != id && !HasReferenceOf(s.payments[j], order.ref)
  }

  /** What the commit demands; of a renewal, no more than that the checkout's id is
      not another payment's. */
  predicate Issues(s: Store, order: Order, at: Place)
    requires at.Issued?
  {
    at.checkoutId != "" &&
    match at.existing
    case Nothing => order.ref.systemPaymentId != "" && order.value > 0 && FreeBut(s, order, at.checkoutId, |s.payments|)
    case Stored(i, _) => FreeBut(s, order, at.checkoutId, i)
  }

  /** The payment read, if any, is the order's, and ended. */
  predicate ReadRenewable(s: Store, order: Order, at: Place)
    requires at.Issued?
  {
    at.existing.Stored? ==>
      at.existing.i < |s.payments| && HasReferenceOf(at.existing.row, order.ref) && Renewable(at.existing.row)
  }

  /** The commit after the gateway's answer goes through exactly when it may, and
      leaves what was ordered and answered. */
  lemma IssuingCommits(s: Store, order: Order, at: Place, now: DateTime)
    requires at.Issued? && at.o < |s.operations|
    ensures var done := Concluded(s, order, at, now);
            && (ReadRenewable(s, order, at) ==> (done.Some? <==> Issues(s, order, at)))
            && (done.Some? ==> IssuedAs(s, done.value, order, at, now))
  {
    OperationRulesMean(s.operations[at.o], at.checkoutId, "");
  }

  // ---------------------------------------------------------------- the steps of a job

  predicate HasKey(s: Store, key: OperationKey, o: nat) {
    o < |s.operations| && s.operations[o].key == key
  }

  /** The order's payment is stored at `i`. */
  predicate HasPayment(s: Store, ref: PaymentRef, i: nat) {
    i < |s.payments| && HasReferenceOf(s.payments[i], ref)
  }

  /** The request, just opened: it carries the whole order, and the reference the
      checkout is to have. */
  predicate JustRequested(op: OperationRow, key: OperationKey, order: Order, reference: ExternalReference) {
    && op.key == key && op.provider == order.provider
    && op.payload == CheckoutPayload(order.ref.systemPaymentId, order.value, order.webhookLink, reference)
    && op.status == InProgress && op.gatewayReference == "" && op.errorMessage == ""
  }

  predicate OnlyMoved(w: World, v: World, order: Order) {
    order.ref in v.jobs && v.jobs[order.ref].order == order && v.jobs == w.jobs[order.ref := v.jobs[order.ref]]
  }

  /** How a start goes on for one generation of the payment: refused, taken up where
      it failed, broken, or with a new request. */
  ghost predicate TakenUp(s: Store, v: World, order: Order, key: OperationKey, reference: ExternalReference, existing: Existing,
                    lands: bool)
    requires order.ref in v.jobs
  {
    var place := v.jobs[order.ref].place;
    if exists o :: 0 <= o < |s.operations| && HasKey(s, key, o) then
      v.store == s && forall o: nat :: HasKey(s, key, o) ==>
        var op := s.operations[o];
        place == if op.status == Rejected && op.gatewayReference == "" then Ready(o, op, existing) else Answered(Refused)
    else if !lands then v.store == s && place == Answered(Broken)
    else
      && place.Ready? && place.o == |s.operations| && place.existing == existing
      && JustRequested(place.op, key, order, reference)
      && v.store == s.(operations := s.operations + [place.op])
  }

  /** The answers of a start, and what it commits: a payment whose checkout has not
      ended is issued already; one that ended is renewed, marked by its last update;
      without a payment the first checkout is issued. */
  lemma StartOutcome(w: World, order: Order, lands: bool)
    requires Good(w.store) && Enabled(w, Start(order, lands))
    ensures var s, v, ref := w.store, Do(w, Start(order, lands)), order.ref;
            && OnlyMoved(w, v, order)
            && (forall i :: 0 <= i < |s.payments| && HasPayment(s, ref, i) ==>
                  var row := s.payments[i];
                  if row.status !in {Expired, Canceled} then v.store == s && v.jobs[ref].place == Answered(AlreadyIssued(i))
                  else TakenUp(s, v, order, RenewCheckoutKey(ref.system, ref.systemPaymentId, row.updatedAt),
                               RenewedCheckout(ref.system, ref.systemPaymentId, row.updatedAt), Stored(i, row), lands))
            && ((forall i :: 0 <= i < |s.payments| ==> !HasPayment(s, ref, i)) ==>
                  TakenUp(s, v, order, CreateCheckoutKey(ref.system, ref.systemPaymentId),
                          FirstCheckout(ref.system, ref.systemPaymentId), Nothing, lands))
  {
    hide SubscriptionKeys, DeliveryKeys, AllProcessed, Owned, FindOperation, FindPaymentBySystemRef;
    var s, ref := w.store, order.ref;
    OnlyFound(s, ref);
    FoundOnly(s, CreateCheckoutKey(ref.system, ref.systemPaymentId));
    forall marker ensures FindsOnly(s, RenewCheckoutKey(ref.system, ref.systemPaymentId, marker)) {
      FoundOnly(s, RenewCheckoutKey(ref.system, ref.systemPaymentId, marker));
    }
  }

  lemma OnlyFound(s: Store, ref: PaymentRef)
    requires Good(s)
    ensures forall i :: 0 <= i < |s.payments| && HasPayment(s, ref, i) ==> ExistingOf(s, ref) == Stored(i, s.payments[i])
    ensures (forall i :: 0 <= i < |s.payments| ==> !HasPayment(s, ref, i)) ==> ExistingOf(s, ref) == Nothing
  {
    hide FindPaymentBySystemRef, SubscriptionKeys, OperationKeys, DeliveryKeys, AllProcessed, Owned;
    var found := FindPaymentBySystemRef(s.payments, ref.systemPaymentId, ref.system);
    if found.Some? { assert HasPayment(s, ref, found.value); }
  }

  ghost predicate FindsOnly(s: Store, key: OperationKey) {
    var found := FindOperation(s.operations, key);
    && (forall o: nat :: HasKey(s, key, o) ==> found == Some(o))
    && (found.Some? ==> HasKey(s, key, found.value))
  }

  lemma FoundOnly(s: Store, key: OperationKey)
    requires Good(s)
    ensures FindsOnly(s, key)
  {
  }

  /** The create call: with a checkout, its id and link are at hand; after an error
      that says nothing of the outcome the request is to be set aside, without a
      reference; after any other, to be recorded as failed. */
  lemma CallOutcome(w: World, ref: PaymentRef, outcome: CreateOutcome)
    requires AllHeld(w) && Enabled(w, CallCreate(ref, outcome))
    ensures var v, order, at := Do(w, CallCreate(ref, outcome)), w.jobs[ref].order, w.jobs[ref].place;
            && OnlyMoved(w, v, order) && v.store == w.store && order.ref == ref
            && var place := v.jobs[ref].place;
               match outcome
               case Created(id, url) => place == Issued(at.o, at.op, at.existing, id, url)
               case Raised(Unsent(message)) =>
                 place.Recovering? && place.o == at.o && FailedWith(at.op, place.op, message)
               case Raised(RequestFailed(message)) =>
                 place.Recovering? && place.o == at.o && SetAsideWith(at.op, place.op, "", message)
               case Raised(TimedOut(message)) =>
                 place.Recovering? && place.o == at.o && SetAsideWith(at.op, place.op, "", message)
               case Raised(StatusError(code, message)) =>
                 && place.Recovering? && place.o == at.o
                 && if code.Some? && code.value >= 500 then SetAsideWith(at.op, place.op, "", message)
                    else FailedWith(at.op, place.op, message)
  {
    hide FindOperation;
    assert Held(w, ref, w.jobs[ref]);
  }

  /** The mirror: a job that answers it is done has committed what was ordered and
      answered, and nothing else; it does so whenever it may and the commit lands. Any
      other has committed nothing, and is to set the request aside with the id. */
  lemma ConcludeOutcome(w: World, ref: PaymentRef, lands: bool, message: string, now: DateTime)
    requires AllHeld(w) && Enabled(w, Conclude(ref, lands, message, now))
    ensures var s, v := w.store, Do(w, Conclude(ref, lands, message, now));
            var Job(order, at) := w.jobs[ref];
            && OnlyMoved(w, v, order) && order.ref == ref
            && if lands && Issues(s, order, at) then
                 v.jobs[ref].place == Answered(IssuedNow) && IssuedAs(s, v.store, order, at, now)
               else
                 && v.store == s && v.jobs[ref].place.Recovering? && v.jobs[ref].place.o == at.o
                 && SetAsideWith(at.op, v.jobs[ref].place.op, at.checkoutId, message)
  {
    hide FindOperation, Concluded, IssuedAs, Issues;
    assert Held(w, ref, w.jobs[ref]);
    var Job(order, at) := w.jobs[ref];
    IssuingCommits(w.store, order, at, now);
  }

  /** The recovery: the request gets the status, reference and message that the job
      decided on, and nothing else changes. */
  lemma RecoverOutcome(w: World, ref: PaymentRef, lands: bool)
    requires AllHeld(w) && Enabled(w, Recover(ref, lands))
    ensures var s, v := w.store, Do(w, Recover(ref, lands));
            var Job(order, at) := w.jobs[ref];
            && OnlyMoved(w, v, order) && order.ref == ref && at.o < |s.operations|
            && if !lands then v.store == s && v.jobs[ref].place == Answered(Broken)
               else
                 && v.jobs[ref].place == Answered(if at.op.status == Rejected then FailedNow else SetAsideNow)
                 && |v.store.operations| == |s.operations|
                 && v.store == s.(operations := s.operations[at.o := v.store.operations[at.o]])
                 && Decided(s.operations[at.o], at.op, v.store.operations[at.o])
  {
    hide FindOperation;
    assert Held(w, ref, w.jobs[ref]);
  }

  // ---------------------------------------------------------------- a job's run

  /** The order's payment carries the gateway's checkout: its id and link, pending, at
      the order's gateway, under a reference of the order; a first issue has the
      order's value and webhook link. The request is completed with the id. */
  predicate Carries(t: Store, order: Order, id: string, url: string) {
    && (exists i :: 0 <= i < |t.payments| && CarriedBy(t.payments[i], order, id, url))
    && (exists o :: 0 <= o < |t.operations| && KeyOf(order.ref, t.operations[o].key)
                    && t.operations[o].status == Completed && t.operations[o].gatewayReference == id)
  }

  predicate CarriedBy(row: PaymentRow, order: Order, id: string, url: string) {
    && HasReferenceOf(row, order.ref) && row.status == Pending && row.gateway == order.provider
    && row.providerPaymentId == id && row.checkoutLink == url
    && match row.externalReference
       case FirstCheckout(system, payment) =>
         PaymentRef(system, payment) == order.ref && row.value == order.value && row.webhookLink == order.webhookLink
       case RenewedCheckout(system, payment, _) => PaymentRef(system, payment) == order.ref
       case _ => false
  }

  /** Since step `from`, the gateway created a checkout for this order, and the last
      step committed it. */
  predicate IssuedSince(steps: seq<Step>, from: nat, order: Order, t: Store) {
    exists n :: from <= n < |steps| - 1 && IssuedAt(steps, n, order, t)
  }

  predicate IssuedAt(steps: seq<Step>, n: nat, order: Order, t: Store) {
    n < |steps| && var call, last := steps[n], steps[|steps| - 1];
    && call.CallCreate? && call.ref == order.ref && call.outcome.Created?
    && last.Conclude? && last.ref == order.ref && Carries(t, order, call.outcome.checkoutId, call.outcome.url)
  }

  lemma IssuedCarries(s: Store, t: Store, order: Order, at: Place, now: DateTime)
    requires at.Issued? && IssuedAs(s, t, order, at, now) && KeyOf(order.ref, s.operations[at.o].key)
    requires ReadRenewable(s, order, at)
    ensures Carries(t, order, at.checkoutId, at.url)
  {
    var i := if at.existing.Stored? then at.existing.i else |s.payments|;
    assert CarriedBy(t.payments[i], order, at.checkoutId, at.url);
    assert KeyOf(order.ref, t.operations[at.o].key);
  }
}
